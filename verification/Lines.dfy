/** The small text operations the printers and readers of this product are made of. */
module Lines {
  import opened Wrappers

  predicate OneLine(s: string) { '\n' !in s }

  lemma OneLineOfBoth(a: string, b: string)
    requires OneLine(a) && OneLine(b)
    ensures OneLine(a + b) && (a != "" ==> a + b != "" && (a + b)[0] == a[0])
  {
  }

  predicate AllOneLine(lines: seq<string>) { forall l :: l in lines ==> OneLine(l) }

  /** The comment a generated file opens with. What it says is not part of this model. */
  predicate Commentary(prose: seq<string>) { forall l :: l in prose ==> l != "" && l[0] == '#' && OneLine(l) }

  /** Lines, none of which is a given one. */
  predicate Apart(lines: seq<string>, other: string) { forall l :: l in lines ==> OneLine(l) && l != other }

  lemma BothApart(a: seq<string>, b: seq<string>, other: string)
    requires Apart(a, other) && Apart(b, other)
    ensures Apart(a + b, other)
  {
  }

  lemma OpensApart(line: string, other: string)
    requires OneLine(line) && line != "" && other != "" && line[0] != other[0]
    ensures Apart([line], other)
  {
  }

  lemma CommentaryIsApart(prose: seq<string>, other: string)
    requires Commentary(prose) && other != "" && other[0] != '#'
    ensures Apart(prose, other)
  {
  }

  /** Every line with its end. */
  function Unlines(lines: seq<string>): string {
    if lines == [] then "" else lines[0] + "\n" + Unlines(lines[1..])
  }

  /** strings.Split by one character: always one part more than there are separators. */
  function Split(s: string, separator: char): (parts: seq<string>)
    ensures parts != []
  {
    if s == "" then [""]
    else if s[0] == separator then [""] + Split(s[1..], separator)
    else
      var rest := Split(s[1..], separator);
      [[s[0]] + rest[0]] + rest[1..]
  }

  lemma {:induction false} SplitAtTheFirst(part: string, separator: char, rest: string)
    requires separator !in part
    ensures Split(part + [separator] + rest, separator) == [part] + Split(rest, separator)
  {
    if part == "" {
      assert part + [separator] + rest == [separator] + rest;
    } else {
      assert (part + [separator] + rest)[1..] == part[1..] + [separator] + rest;
      SplitAtTheFirst(part[1..], separator, rest);
      assert [part[0]] + part[1..] == part;
    }
  }

  lemma {:induction false} NothingToSplit(part: string, separator: char)
    requires separator !in part
    ensures Split(part, separator) == [part]
  {
    if part != "" {
      NothingToSplit(part[1..], separator);
      assert [part[0]] + part[1..] == part;
    }
  }

  /** The lines a text opens with are the first lines it is split into. */
  lemma {:induction false} SplitLines(lines: seq<string>, rest: string)
    requires AllOneLine(lines)
    ensures Split(Unlines(lines) + rest, '\n') == lines + Split(rest, '\n')
    decreases |lines|
  {
    if lines == [] {
      assert Unlines(lines) + rest == rest;
    } else {
      var line, more := lines[0], lines[1..];
      assert line in lines && AllOneLine(more);
      Regrouped(line + ['\n'], Unlines(more), rest);
      SplitAtTheFirst(line, '\n', Unlines(more) + rest);
      SplitLines(more, rest);
      Regrouped([line], more, Split(rest, '\n'));
      assert [line] + more == lines;
    }
  }

  lemma {:induction false} UnlinesOfBoth(a: seq<string>, b: seq<string>)
    ensures Unlines(a + b) == Unlines(a) + Unlines(b)
    decreases |a|
  {
    if a == [] {
      assert a + b == b;
    } else {
      assert (a + b)[1..] == a[1..] + b;
      UnlinesOfBoth(a[1..], b);
    }
  }

  lemma OneMoreLine(lines: seq<string>, n: nat)
    requires n < |lines|
    ensures Unlines(lines[..n + 1]) == Unlines(lines[..n]) + lines[n] + "\n"
  {
    assert lines[..n + 1] == lines[..n] + [lines[n]];
    UnlinesOfBoth(lines[..n], [lines[n]]);
    assert Unlines([lines[n]]) == lines[n] + "\n";
  }

  // ---- Trimming

  predicate IsSpace(c: char) { c in {' ', '\t', '\n', '\U{000B}', '\U{000C}', '\r', '\U{0085}', '\U{00A0}'} }

  function TrimLeft(s: string): string { if s != "" && IsSpace(s[0]) then TrimLeft(s[1..]) else s }

  function TrimRight(s: string): string { if s != "" && IsSpace(s[|s| - 1]) then TrimRight(s[..|s| - 1]) else s }

  function Trim(s: string): string { TrimRight(TrimLeft(s)) }

  /** Nothing to trim at either end. */
  predicate Tight(s: string) { s != "" && !IsSpace(s[0]) && !IsSpace(s[|s| - 1]) }

  lemma Composed(a: string, b: string)
    requires OneLine(a) && OneLine(b) && a != "" && b != "" && !IsSpace(a[0]) && !IsSpace(b[|b| - 1])
    ensures OneLine(a + b) && Tight(a + b) && (a + b)[0] == a[0] && (a + b)[|a + b| - 1] == b[|b| - 1]
  {
  }

  function Tabs(n: nat): string { if n == 0 then "" else "\t" + Tabs(n - 1) }

  lemma {:induction false} TrimIndented(n: nat, s: string)
    requires Tight(s)
    ensures Trim(Tabs(n) + s) == s
  {
    if n == 0 {
      assert Tabs(n) + s == s;
    } else {
      assert (Tabs(n) + s)[1..] == Tabs(n - 1) + s;
      TrimIndented(n - 1, s);
    }
  }

  lemma TrimTight(s: string)
    requires Tight(s)
    ensures Trim(s) == s
  {
  }

  lemma {:induction false} TrimKeepsTheHead(s: string)
    requires s != "" && !IsSpace(s[0])
    ensures TrimRight(s) != "" && TrimRight(s)[0] == s[0]
    decreases |s|
  {
    if IsSpace(s[|s| - 1]) {
      TrimKeepsTheHead(s[..|s| - 1]);
    }
  }

  /** A line that opens on another character than a prefix does not carry it once trimmed. */
  lemma TrimmedElsewhere(line: string, prefix: string)
    requires prefix != "" && (line == "" || (!IsSpace(line[0]) && line[0] != prefix[0]))
    ensures !(prefix <= Trim(line))
  {
    if line != "" {
      TrimKeepsTheHead(line);
    }
  }

  // ---- Decimal numbers, as they are printed and as strconv.Atoi reads them

  const LEAST := -0x8000_0000_0000_0000
  const GREATEST := 0x7FFF_FFFF_FFFF_FFFF

  predicate IsDigit(c: char) { '0' <= c <= '9' }

  function Digit(d: nat): char
    requires d < 10
  {
    '0' + d as char
  }

  function DigitsOf(n: nat): string {
    if n < 10 then [Digit(n)] else DigitsOf(n / 10) + [Digit(n % 10)]
  }

  function Decimal(n: int): string { if n < 0 then "-" + DigitsOf(-n) else DigitsOf(n) }

  /** The number a run of digits spells, or nothing. */
  function Digits(s: string): Option<nat> {
    if s == "" || !IsDigit(s[|s| - 1]) then None
    else
      var last := s[|s| - 1] as int - '0' as int;
      if |s| == 1 then Some(last)
      else
        var front := Digits(s[..|s| - 1]);
        if front.None? then None else Some(10 * front.value + last)
  }

  /** The number a text spells, of whatever size. */
  function Spelled(s: string): Option<int> {
    if s == "" then None
    else
      var magnitude := Digits(if s[0] == '-' || s[0] == '+' then s[1..] else s);
      if magnitude.None? then None else Some(if s[0] == '-' then 0 - magnitude.value else magnitude.value)
  }

  function Atoi(s: string): Option<int> {
    var n := Spelled(s);
    if n.Some? && LEAST <= n.value <= GREATEST then n else None
  }

  lemma {:induction false} PrintedDigits(n: nat)
    ensures DigitsOf(n) != "" && Digits(DigitsOf(n)) == Some(n)
    ensures forall c :: c in DigitsOf(n) ==> IsDigit(c)
  {
    if n >= 10 {
      PrintedDigits(n / 10);
      assert DigitsOf(n)[..|DigitsOf(n)| - 1] == DigitsOf(n / 10);
    } else {
      assert Digits([Digit(n)]) == Some(n);
    }
  }

  lemma DecimalCharacters(n: int)
    ensures Decimal(n) != "" && forall c :: c in Decimal(n) ==> IsDigit(c) || c == '-'
  {
    PrintedDigits(if n < 0 then -n else n);
  }

  lemma DecimalSpells(n: int)
    ensures Spelled(Decimal(n)) == Some(n)
  {
    PrintedDigits(if n < 0 then -n else n);
    if n < 0 {
      assert Decimal(n)[1..] == DigitsOf(-n);
    } else {
      assert DigitsOf(n)[0] in DigitsOf(n);
    }
  }

  /** What is printed is read back, over the whole range of the reader. */
  lemma AtoiOfDecimal(n: int)
    ensures Decimal(n) != "" && forall c :: c in Decimal(n) ==> IsDigit(c) || c == '-'
    ensures OneLine(Decimal(n)) && !IsSpace(Decimal(n)[|Decimal(n)| - 1])
    ensures Spelled(Decimal(n)) == Some(n)
    ensures LEAST <= n <= GREATEST ==> Atoi(Decimal(n)) == Some(n)
  {
    DecimalCharacters(n);
    DecimalSpells(n);
    var text := Decimal(n);
    assert text[|text| - 1] in text;
  }

  // ---- Searching

  /** bytes.Contains. */
  predicate Contains(text: string, what: string) { what <= text || (text != "" && Contains(text[1..], what)) }

  /** What a text holds from the first occurrence of a marker onwards, or nothing. */
  function From(text: string, marker: string): string {
    if marker <= text then text
    else if text == "" then ""
    else From(text[1..], marker)
  }

  function Marker(line: string): string { "\n" + line + "\n" }

  /** A marker opens on a line's end, so it is met there or further on, never inside the line. */
  lemma {:induction false} PastOneLine(line: string, rest: string, inner: string)
    requires OneLine(line)
    ensures Contains(line + "\n" + rest, Marker(inner)) <==> inner + "\n" <= rest || Contains(rest, Marker(inner))
    ensures From(line + "\n" + rest, Marker(inner)) == if inner + "\n" <= rest then "\n" + rest else From(rest, Marker(inner))
    decreases |line|
  {
    var text := line + "\n" + rest;
    if line == "" {
      assert text == "\n" + rest && text[1..] == rest;
      assert Marker(inner) == "\n" + (inner + "\n");
      assert Marker(inner) <= text <==> inner + "\n" <= rest by {
        if Marker(inner) <= text {
          assert Marker(inner)[1..] <= text[1..];
          assert Marker(inner)[1..] == inner + "\n";
        }
      }
    } else {
      assert text[0] == line[0] && line[0] in line;
      assert Marker(inner)[0] == '\n';
      assert text[1..] == line[1..] + "\n" + rest;
      PastOneLine(line[1..], rest, inner);
    }
  }

  lemma LineAtTheHead(line: string, inner: string, rest: string)
    requires OneLine(line) && OneLine(inner)
    ensures inner + "\n" <= line + "\n" + rest <==> inner == line
  {
    var text := line + "\n" + rest;
    assert text == line + ['\n'] + rest;
    SplitAtTheFirst(line, '\n', rest);
    if inner + "\n" <= text {
      var more := text[|inner| + 1..];
      assert text == inner + ['\n'] + more;
      SplitAtTheFirst(inner, '\n', more);
      assert Split(text, '\n')[0] == inner;
    }
  }

  lemma HeadLine(lines: seq<string>, rest: string)
    requires lines != []
    ensures Unlines(lines) + rest == lines[0] + "\n" + (Unlines(lines[1..]) + rest)
  {
    Regrouped(lines[0] + "\n", Unlines(lines[1..]), rest);
  }

  /** A marker whose line none of these lines is, past the first, is met only after them. */
  lemma {:induction false} PastLines(lines: seq<string>, inner: string, rest: string)
    requires lines != [] && AllOneLine(lines) && OneLine(inner) && inner !in lines[1..] && !(inner + "\n" <= rest)
    ensures Contains(Unlines(lines) + rest, Marker(inner)) <==> Contains(rest, Marker(inner))
    ensures From(Unlines(lines) + rest, Marker(inner)) == From(rest, Marker(inner))
    decreases |lines|
  {
    var more := lines[1..];
    var tail := Unlines(more) + rest;
    assert lines[0] in lines;
    HeadLine(lines, rest);
    PastOneLine(lines[0], tail, inner);
    if more == [] {
      assert tail == rest;
    } else {
      assert more[0] in more && AllOneLine(more);
      HeadLine(more, rest);
      LineAtTheHead(more[0], inner, Unlines(more[1..]) + rest);
      PastLines(more, inner, rest);
    }
  }

  /** A line that follows others is found between their ends. */
  lemma {:induction false} FoundAfter(lines: seq<string>, line: string, rest: string)
    requires lines != [] && AllOneLine(lines)
    ensures Contains(Unlines(lines) + (line + "\n" + rest), Marker(line))
    decreases |lines|
  {
    var tail := line + "\n" + rest;
    assert lines[0] in lines;
    HeadLine(lines, tail);
    PastOneLine(lines[0], Unlines(lines[1..]) + tail, line);
    if |lines| == 1 {
      assert Unlines(lines[1..]) + tail == tail;
      assert tail == (line + "\n") + rest;
    } else {
      FoundAfter(lines[1..], line, rest);
    }
  }

  // ---- Tables, row by row

  /** One line of a table: how deep it stands, and what it says. */
  datatype Row = Row(depth: nat, content: string)

  function LineOf(r: Row): string { Tabs(r.depth) + r.content }

  function LinesOf(rows: seq<Row>): seq<string> { seq(|rows|, i requires 0 <= i < |rows| => LineOf(rows[i])) }

  predicate CommentRows(rows: seq<Row>) { forall r :: r in rows ==> OneLine(r.content) && Tight(r.content) && r.content[0] == '#' }

  function Rendered(rows: seq<Row>): string { Unlines(LinesOf(rows)) }

  lemma TrimmedRow(r: Row)
    requires r.content == "" || Tight(r.content)
    requires r.content == "" ==> r.depth == 0
    ensures Trim(LineOf(r)) == r.content
  {
    if r.content != "" {
      TrimIndented(r.depth, r.content);
    }
  }

  lemma {:induction false} RowsAreLines(rows: seq<Row>)
    requires forall r :: r in rows ==> OneLine(r.content)
    ensures AllOneLine(LinesOf(rows))
    decreases |rows|
  {
    forall i | 0 <= i < |rows| ensures OneLine(LinesOf(rows)[i]) {
      assert rows[i] in rows;
      TabsAreOneLine(rows[i].depth);
    }
  }

  lemma {:induction false} TabsAreOneLine(n: nat)
    ensures OneLine(Tabs(n))
  {
    if n > 0 {
      TabsAreOneLine(n - 1);
    }
  }

  lemma TableLines(rows: seq<Row>)
    requires forall r :: r in rows ==> OneLine(r.content)
    ensures Split(Rendered(rows), '\n') == LinesOf(rows) + [""]
  {
    RowsAreLines(rows);
    SplitLines(LinesOf(rows), "");
    assert Unlines(LinesOf(rows)) + "" == Unlines(LinesOf(rows));
  }
}
