/** One approved configuration line on its way through the unit syntax, and its way back. */
module Quoting {
  import opened Wrappers

  /** strings.ReplaceAll of one character. */
  function Replaced(s: string, c: char, put: string): string {
    if s == "" then "" else (if s[0] == c then put else [s[0]]) + Replaced(s[1..], c, put)
  }

  predicate NeedsQuotes(s: string) { ' ' in s || '\t' in s || '"' in s || '\'' in s || '\\' in s }

  /** environmentLine: percents doubled always, and quotes only around what the reader would split or unescape. */
  function EnvironmentLine(line: string): string {
    var escaped := Replaced(line, '%', "%%");
    if !NeedsQuotes(escaped) then escaped
    else "\"" + Replaced(Replaced(escaped, '\\', "\\\\"), '"', "\\\"") + "\""
  }

  // ---- What the reader of the unit does

  /** A backslash gives the character it stands before. */
  function Unescaped(s: string): string {
    if s == "" then ""
    else if s[0] == '\\' && |s| > 1 then [s[1]] + Unescaped(s[2..])
    else [s[0]] + Unescaped(s[1..])
  }

  /** Two percents are one. */
  function Halved(s: string): string {
    if s == "" then ""
    else if s[0] == '%' && |s| > 1 && s[1] == '%' then "%" + Halved(s[2..])
    else [s[0]] + Halved(s[1..])
  }

  /** A word in double quotes is unescaped, any other is itself; then specifiers are expanded. */
  function Read(word: string): string {
    if |word| >= 2 && word[0] == '"' && word[|word| - 1] == '"' then Halved(Unescaped(word[1..|word| - 1])) else Halved(word)
  }

  lemma {:induction false} DoublingIsHalved(s: string)
    ensures Halved(Replaced(s, '%', "%%")) == s
  {
    if s != "" {
      DoublingIsHalved(s[1..]);
      var tail := Replaced(s[1..], '%', "%%");
      if s[0] == '%' {
        assert ("%%" + tail)[2..] == tail;
      } else {
        assert ([s[0]] + tail)[1..] == tail;
      }
      assert [s[0]] + s[1..] == s;
    }
  }

  /** Both escapings at once: each character by what it becomes. */
  function Escaped(s: string): string {
    if s == "" then ""
    else (if s[0] == '\\' then "\\\\" else if s[0] == '"' then "\\\"" else [s[0]]) + Escaped(s[1..])
  }

  lemma {:induction false} ReplacedBoth(a: string, b: string, c: char, put: string)
    ensures Replaced(a + b, c, put) == Replaced(a, c, put) + Replaced(b, c, put)
  {
    if a == "" {
      assert a + b == b;
    } else {
      assert (a + b)[1..] == a[1..] + b;
      ReplacedBoth(a[1..], b, c, put);
    }
  }

  /** Escaping the quotes second does not touch what escaping the backslashes wrote. */
  lemma {:induction false} EscapedInTwoPasses(s: string)
    ensures Replaced(Replaced(s, '\\', "\\\\"), '"', "\\\"") == Escaped(s)
  {
    if s != "" {
      EscapedInTwoPasses(s[1..]);
      var head := if s[0] == '\\' then "\\\\" else [s[0]];
      ReplacedBoth(head, Replaced(s[1..], '\\', "\\\\"), '"', "\\\"");
      assert head[1..] == (if s[0] == '\\' then "\\" else "");
      assert "\\"[1..] == "";
    }
  }

  lemma {:induction false} EscapingIsUndone(s: string)
    ensures Unescaped(Escaped(s)) == s
  {
    if s != "" {
      EscapingIsUndone(s[1..]);
      var tail := Escaped(s[1..]);
      if s[0] == '\\' {
        assert ("\\\\" + tail)[2..] == tail;
      } else if s[0] == '"' {
        assert ("\\\"" + tail)[2..] == tail;
      } else {
        assert ([s[0]] + tail)[1..] == tail;
      }
      assert [s[0]] + s[1..] == s;
    }
  }

  lemma {:induction false} ReplacedHolds(s: string, c: char, put: string, x: char)
    requires x !in put && x != c
    ensures x in Replaced(s, c, put) <==> x in s
  {
    if s != "" {
      ReplacedHolds(s[1..], c, put, x);
      assert s == [s[0]] + s[1..];
    }
  }

  /** What the container receives is what the human read, for every line. */
  lemma NothingIsLost(line: string)
    ensures Read(EnvironmentLine(line)) == line
  {
    var escaped := Replaced(line, '%', "%%");
    DoublingIsHalved(line);
    if NeedsQuotes(escaped) {
      EscapedInTwoPasses(escaped);
      EscapingIsUndone(escaped);
      var quoted := "\"" + Escaped(escaped) + "\"";
      assert quoted[1..|quoted| - 1] == Escaped(escaped);
    }
  }

  lemma LinesAreKeptApart(a: string, b: string)
    requires EnvironmentLine(a) == EnvironmentLine(b)
    ensures a == b
  {
    NothingIsLost(a);
    NothingIsLost(b);
  }

  /** A line is quoted exactly when it holds what the reader would split at or unescape; unquoted it holds none. */
  lemma TheTwoFormsDoNotCollide(line: string)
    ensures NeedsQuotes(line) <==> EnvironmentLine(line) != "" && EnvironmentLine(line)[0] == '"'
    ensures !NeedsQuotes(line) ==> !NeedsQuotes(EnvironmentLine(line))
  {
    ReplacedHolds(line, '%', "%%", ' ');
    ReplacedHolds(line, '%', "%%", '\t');
    ReplacedHolds(line, '%', "%%", '"');
    ReplacedHolds(line, '%', "%%", '\'');
    ReplacedHolds(line, '%', "%%", '\\');
  }

  /** One line stays one line. */
  lemma NoLineIsAdded(line: string)
    ensures '\n' in EnvironmentLine(line) <==> '\n' in line
  {
    ReplacedHolds(line, '%', "%%", '\n');
    var escaped := Replaced(line, '%', "%%");
    ReplacedHolds(escaped, '\\', "\\\\", '\n');
    ReplacedHolds(Replaced(escaped, '\\', "\\\\"), '"', "\\\"", '\n');
  }
}
