/** What a loaded table does to a packet: the rules of one hook in their order, the first that fits deciding. */
module Tables {
  import opened Wrappers
  import opened Lines

  datatype Protocol = Tcp | Udp | Other

  /** Everything a rule of this product looks at. Interfaces are named as the rules name them. */
  datatype Packet = Packet(
    arrives: string,
    leaves: string,
    source: string,
    destination: string,
    protocol: Protocol,
    port: int,
    established: bool,
    user: int
  )

  datatype Verdict = Accept | Drop | Redirect(target: string) | Unread

  // ---- One rule, word by word

  /** What a rule says of a packet, or nothing where it is not about it. */
  function Judged(w: seq<string>, p: Packet): Option<Verdict>
    decreases |w|
  {
    if |w| == 0 then Some(Unread)
    else if |w| == 1 then (if w[0] == "accept" then Some(Accept) else if w[0] == "drop" then Some(Drop) else Some(Unread))
    else if w[0] == "iifname" then (if w[1] == p.arrives then Judged(w[2..], p) else None)
    else if w[0] == "oifname" then (if w[1] == p.leaves then Judged(w[2..], p) else None)
    else if |w| < 3 then Some(Unread)
    else if w[0] == "ip" && w[1] == "saddr" then (if w[2] == p.source then Judged(w[3..], p) else None)
    else if w[0] == "ip" && w[1] == "daddr" then (if w[2] == p.destination then Judged(w[3..], p) else None)
    else if w[0] == "tcp" && w[1] == "dport" then (if p.protocol.Tcp? && Spelled(w[2]) == Some(p.port) then Judged(w[3..], p) else None)
    else if w[0] == "udp" && w[1] == "dport" then (if p.protocol.Udp? && Spelled(w[2]) == Some(p.port) then Judged(w[3..], p) else None)
    else if w[0] == "ct" && w[1] == "state" && w[2] == "established" then (if p.established then Judged(w[3..], p) else None)
    else if w[0] == "meta" && w[1] == "skuid" then (if Spelled(w[2]) == Some(p.user) then Judged(w[3..], p) else None)
    else if |w| == 4 && w[0] == "dnat" && w[1] == "ip" && w[2] == "to" then Some(Redirect(w[3]))
    else Some(Unread)
  }

  lemma KeysDiffer()
    ensures "iifname" != "oifname" && "ip" != "iifname" && "ip" != "oifname" && "saddr" != "daddr"
    ensures "tcp" !in ["iifname", "oifname", "ip"] && "udp" !in ["iifname", "oifname", "ip", "tcp"]
    ensures "ct" !in ["iifname", "oifname", "ip", "tcp", "udp"]
    ensures "meta" !in ["iifname", "oifname", "ip", "tcp", "udp", "ct"]
    ensures "dnat" !in ["iifname", "oifname", "ip", "tcp", "udp", "ct", "meta"]
  {
    assert "iifname"[0] == 'i' && "iifname"[1] == 'i' && "oifname"[0] == 'o' && "ip"[1] == 'p' && "saddr"[0] == 's' && "daddr"[0] == 'd';
    assert "tcp"[0] == 't' && "udp"[0] == 'u' && "ct"[0] == 'c' && "meta"[0] == 'm' && "dnat"[0] == 'd';
  }

  lemma AfterTwoWords(a: string, b: string, more: seq<string>)
    requires more != []
    ensures var w := [a, b] + more; |w| > 2 && w[0] == a && w[1] == b && w[2..] == more
  {
  }

  lemma AfterThreeWords(a: string, b: string, c: string, more: seq<string>)
    requires more != []
    ensures var w := [a, b, c] + more; |w| > 3 && w[0] == a && w[1] == b && w[2] == c && w[3..] == more
  {
  }

  lemma Arriving(i: string, more: seq<string>, p: Packet)
    requires more != []
    ensures Judged(["iifname", i] + more, p) == if i == p.arrives then Judged(more, p) else None
  {
    AfterTwoWords("iifname", i, more);
  }

  lemma Leaving(i: string, more: seq<string>, p: Packet)
    requires more != []
    ensures Judged(["oifname", i] + more, p) == if i == p.leaves then Judged(more, p) else None
  {
    KeysDiffer();
    AfterTwoWords("oifname", i, more);
  }

  lemma SentBy(a: string, more: seq<string>, p: Packet)
    requires more != []
    ensures Judged(["ip", "saddr", a] + more, p) == if a == p.source then Judged(more, p) else None
  {
    KeysDiffer();
    AfterThreeWords("ip", "saddr", a, more);
  }

  lemma Towards(a: string, more: seq<string>, p: Packet)
    requires more != []
    ensures Judged(["ip", "daddr", a] + more, p) == if a == p.destination then Judged(more, p) else None
  {
    KeysDiffer();
    AfterThreeWords("ip", "daddr", a, more);
  }

  lemma OnTcp(n: string, more: seq<string>, p: Packet)
    requires more != []
    ensures Judged(["tcp", "dport", n] + more, p) == if p.protocol.Tcp? && Spelled(n) == Some(p.port) then Judged(more, p) else None
  {
    KeysDiffer();
    AfterThreeWords("tcp", "dport", n, more);
  }

  lemma OnUdp(n: string, more: seq<string>, p: Packet)
    requires more != []
    ensures Judged(["udp", "dport", n] + more, p) == if p.protocol.Udp? && Spelled(n) == Some(p.port) then Judged(more, p) else None
  {
    KeysDiffer();
    AfterThreeWords("udp", "dport", n, more);
  }

  lemma Replying(more: seq<string>, p: Packet)
    requires more != []
    ensures Judged(["ct", "state", "established"] + more, p) == if p.established then Judged(more, p) else None
  {
    KeysDiffer();
    AfterThreeWords("ct", "state", "established", more);
  }

  lemma Emitting(n: string, more: seq<string>, p: Packet)
    requires more != []
    ensures Judged(["meta", "skuid", n] + more, p) == if Spelled(n) == Some(p.user) then Judged(more, p) else None
  {
    KeysDiffer();
    AfterThreeWords("meta", "skuid", n, more);
  }

  lemma Redirecting(target: string, p: Packet)
    ensures Judged(["dnat", "ip", "to"] + [target], p) == Some(Redirect(target))
  {
    KeysDiffer();
    AfterThreeWords("dnat", "ip", "to", [target]);
  }

  lemma Ending(p: Packet)
    ensures Judged(["accept"], p) == Some(Accept) && Judged(["drop"], p) == Some(Drop)
  {
    assert "accept"[0] == 'a' && "drop"[0] == 'd';
  }

  // ---- A table, line by line

  /** Either a rule decided, or the reading goes on, inside the chain of the hook or outside of it. */
  datatype Walked = Decided(verdict: Verdict) | Still(inside: bool)

  /** A base chain that lets through what none of its rules decides. */
  predicate LetsTheRest(w: seq<string>) { |w| == 6 || (|w| == 8 && w[6] == "policy" && w[7] == "accept;") }

  predicate Frame(word: string) { word == "chain" || word == "table" || word == "add" || word == "delete" }

  function Step(content: string, hook: string, inside: bool, p: Packet): Walked {
    if content == "" || content[0] == '#' then Still(inside)
    else
      var w := Split(content, ' ');
      if w[0] == "type" then
        (if |w| <= 3 || w[3] != hook then Still(false) else if LetsTheRest(w) then Still(true) else Decided(Unread))
      else if w[0] == "}" then Still(false)
      else if Frame(w[0]) then Still(inside)
      else if !inside then Still(false)
      else if Judged(w, p).Some? then Decided(Judged(w, p).value)
      else Still(true)
  }

  function WalkLines(lines: seq<string>, hook: string, inside: bool, p: Packet): Walked {
    if lines == [] then Still(inside)
    else
      var s := Step(Trim(lines[0]), hook, inside, p);
      if s.Decided? then s else WalkLines(lines[1..], hook, s.inside, p)
  }

  /** The verdict of a whole table: what none of the rules of the hook decides is let through. */
  function VerdictOf(table: string, hook: string, p: Packet): Verdict {
    var w := WalkLines(Split(table, '\n'), hook, false, p);
    if w.Decided? then w.verdict else Accept
  }

  function Walk(rows: seq<Row>, hook: string, inside: bool, p: Packet): Walked {
    if rows == [] then Still(inside)
    else
      var s := Step(rows[0].content, hook, inside, p);
      if s.Decided? then s else Walk(rows[1..], hook, s.inside, p)
  }

  predicate Laid(r: Row) { OneLine(r.content) && (r.content == "" || Tight(r.content)) && (r.content == "" ==> r.depth == 0) }

  predicate AllLaid(rows: seq<Row>) { forall r :: r in rows ==> Laid(r) }

  lemma {:induction false} WalkOfBoth(a: seq<Row>, b: seq<Row>, hook: string, inside: bool, p: Packet)
    ensures var w := Walk(a, hook, inside, p);
            Walk(a + b, hook, inside, p) == if w.Decided? then w else Walk(b, hook, w.inside, p)
    decreases |a|
  {
    if a == [] {
      assert a + b == b;
    } else {
      assert (a + b)[1..] == a[1..] + b;
      var s := Step(a[0].content, hook, inside, p);
      if s.Still? {
        WalkOfBoth(a[1..], b, hook, s.inside, p);
      }
    }
  }

  lemma {:induction false} RowsWalkAsTheirLines(rows: seq<Row>, hook: string, inside: bool, p: Packet)
    requires AllLaid(rows)
    ensures WalkLines(LinesOf(rows) + [""], hook, inside, p) == Walk(rows, hook, inside, p)
    decreases |rows|
  {
    var lines := LinesOf(rows) + [""];
    if rows == [] {
      assert lines == [""] && lines[1..] == [];
    } else {
      assert rows[0] in rows;
      TrimmedRow(rows[0]);
      assert lines[0] == LineOf(rows[0]) && lines[1..] == LinesOf(rows[1..]) + [""];
      var s := Step(rows[0].content, hook, inside, p);
      if s.Still? {
        RowsWalkAsTheirLines(rows[1..], hook, s.inside, p);
      }
    }
  }

  lemma VerdictOfRows(rows: seq<Row>, hook: string, p: Packet)
    requires AllLaid(rows)
    ensures VerdictOf(Rendered(rows), hook, p) == var w := Walk(rows, hook, false, p); if w.Decided? then w.verdict else Accept
  {
    TableLines(rows);
    RowsWalkAsTheirLines(rows, hook, false, p);
  }

  lemma {:induction false} CommentsArePassed(rows: seq<Row>, hook: string, inside: bool, p: Packet)
    requires forall r :: r in rows ==> r.content == "" || r.content[0] == '#'
    ensures Walk(rows, hook, inside, p) == Still(inside)
    decreases |rows|
  {
    if rows != [] {
      assert rows[0] in rows;
      CommentsArePassed(rows[1..], hook, inside, p);
    }
  }

  // ---- Words

  lemma {:induction false} SplitJoins(a: string, separator: char, b: string)
    ensures Split(a + ([separator] + b), separator) == Split(a, separator) + Split(b, separator)
    decreases |a|
  {
    var text := a + ([separator] + b);
    if a == "" {
      assert text == [separator] + b && text[1..] == b;
    } else {
      assert text[0] == a[0] && text[1..] == a[1..] + ([separator] + b);
      SplitJoins(a[1..], separator, b);
    }
  }

  lemma OneWord(word: string)
    requires ' ' !in word
    ensures Split(word, ' ') == [word]
  {
    NothingToSplit(word, ' ');
  }

  lemma FirstWord(word: string, rest: string)
    requires ' ' !in word
    ensures Split(word + (" " + rest), ' ') == [word] + Split(rest, ' ')
  {
    SplitJoins(word, ' ', rest);
    OneWord(word);
  }

  lemma OneRow(r: Row, hook: string, inside: bool, p: Packet)
    ensures Walk([r], hook, inside, p) == Step(r.content, hook, inside, p)
  {
    assert [r][1..] == [];
  }

  /** A rule is judged inside the chain of its hook, and passed over outside of it. */
  predicate IsRule(word: string) { word != "" && word[0] in {'i', 'o', 'u', 'm'} }

  lemma RuleRow(r: Row, w: seq<string>, hook: string, inside: bool, p: Packet)
    requires r.content != "" && Split(r.content, ' ') == w && IsRule(w[0]) && r.content[0] == w[0][0]
    ensures Walk([r], hook, inside, p) ==
              if inside && Judged(w, p).Some? then Decided(Judged(w, p).value) else Still(inside)
  {
    OneRow(r, hook, inside, p);
    assert "type"[0] == 't' && "}"[0] == '}' && "chain"[0] == 'c' && "table"[0] == 't' && "add"[0] == 'a' && "delete"[0] == 'd';
  }

  lemma FrameRow(r: Row, word: string, rest: string, hook: string, inside: bool, p: Packet)
    requires Frame(word) && ' ' !in word && word != "" && r.content == word + (" " + rest)
    ensures Walk([r], hook, inside, p) == Still(inside)
  {
    OneRow(r, hook, inside, p);
    FirstWord(word, rest);
    assert "type"[0] == 't' && "type"[1] == 'y' && "}"[0] == '}' && "chain"[0] == 'c' && "table"[1] == 'a' && "add"[0] == 'a' && "delete"[0] == 'd';
  }

  lemma ClosingRow(depth: nat, hook: string, inside: bool, p: Packet)
    ensures Walk([Row(depth, "}")], hook, inside, p) == Still(false)
  {
    OneRow(Row(depth, "}"), hook, inside, p);
    OneWord("}");
    assert "type"[0] == 't';
  }

  lemma EmptyRow(hook: string, inside: bool, p: Packet)
    ensures Walk([Row(0, "")], hook, inside, p) == Still(inside)
  {
    OneRow(Row(0, ""), hook, inside, p);
  }

  /** A base chain opens the reading of its own hook, and closes it for every other. */
  lemma TypeRow(r: Row, kind: string, name: string, rest: string, hook: string, inside: bool, p: Packet)
    requires ' ' !in kind && ' ' !in name && LetsTheRest(["type", kind, "hook", name] + Split(rest, ' '))
    requires r.content == "type" + (" " + (kind + (" " + ("hook" + (" " + (name + (" " + rest)))))))
    ensures Walk([r], hook, inside, p) == Still(name == hook)
  {
    OneRow(r, hook, inside, p);
    var named := name + (" " + rest);
    FirstWord(name, rest);
    FirstWord("hook", named);
    FirstWord(kind, "hook" + (" " + named));
    FirstWord("type", kind + (" " + ("hook" + (" " + named))));
    assert Split(r.content, ' ') == ["type", kind, "hook", name] + Split(rest, ' ');
  }

  lemma Past(a: seq<Row>, b: seq<Row>, hook: string, inside: bool, next: bool, p: Packet)
    requires Walk(a, hook, inside, p) == Still(next)
    ensures Walk(a + b, hook, inside, p) == Walk(b, hook, next, p)
  {
    WalkOfBoth(a, b, hook, inside, p);
  }

  lemma TwoWords(a: string, b: string)
    requires ' ' !in a && ' ' !in b
    ensures Split(a + (" " + b), ' ') == [a, b]
  {
    FirstWord(a, b);
    OneWord(b);
  }

  lemma SpacedReplies()
    ensures " ct state established accept" == " " + "ct state established accept"
  {
  }

  lemma RepliesText()
    ensures "ct state established accept" == "ct" + (" " + ("state" + (" " + ("established" + (" " + "accept")))))
  {
  }

  lemma RepliesInWords()
    ensures " ct state established accept" == " " + "ct state established accept"
    ensures Split("ct state established accept", ' ') == ["ct", "state", "established"] + ["accept"]
  {
    SpacedReplies();
    RepliesText();
    FourWords("ct", "state", "established", "accept");
  }

  lemma FourWords(a: string, b: string, c: string, d: string)
    requires ' ' !in a && ' ' !in b && ' ' !in c && ' ' !in d
    ensures Split(a + (" " + (b + (" " + (c + (" " + d))))), ' ') == [a, b, c] + [d]
  {
    FirstWord(a, b + (" " + (c + (" " + d))));
    FirstWord(b, c + (" " + d));
    TwoWords(c, d);
  }

  lemma NumberIsOneWord(n: int)
    ensures ' ' !in Decimal(n) && Spelled(Decimal(n)) == Some(n)
  {
    AtoiOfDecimal(n);
  }

  lemma PairOfRows(a: Row, b: Row, hook: string, inside: bool, p: Packet)
    ensures Walk([a, b], hook, inside, p) == var w := Walk([a], hook, inside, p); if w.Decided? then w else Walk([b], hook, w.inside, p)
  {
    assert [a, b] == [a] + [b];
    WalkOfBoth([a], [b], hook, inside, p);
  }

  lemma KindTexts()
    ensures "type " == "type" + " " && " hook " == " " + ("hook" + " ")
  {
  }

  lemma KindText(kind: string, name: string, rest: string)
    ensures "type " + (kind + (" hook " + (name + (" " + rest)))) == "type" + (" " + (kind + (" " + ("hook" + (" " + (name + (" " + rest)))))))
  {
    KindTexts();
    var named := name + (" " + rest);
    Regrouped(" ", "hook" + " ", named);
    Regrouped("hook", " ", named);
    Regrouped("type", " ", kind + (" hook " + named));
  }

  lemma FilterInWords()
    ensures Split("priority filter; policy accept;", ' ') == ["priority", "filter;", "policy"] + ["accept;"]
  {
    PriorityText();
    FourWords("priority", "filter;", "policy", "accept;");
  }

  lemma PriorityText()
    ensures "priority filter; policy accept;" == "priority" + (" " + ("filter;" + (" " + ("policy" + (" " + "accept;")))))
  {
  }

  lemma ThreeRows(a: Row, b: Row, c: Row, hook: string, inside: bool, next: bool, p: Packet)
    requires Walk([a], hook, inside, p) == Still(inside) && Walk([b], hook, inside, p) == Still(next) && Walk([c], hook, next, p) == Still(next)
    ensures Walk([a, b, c], hook, inside, p) == Still(next)
  {
    assert [a, b, c] == [a] + ([b] + [c]);
    Past([b], [c], hook, inside, next, p);
    Past([a], [b] + [c], hook, inside, inside, p);
  }

  lemma VerbTexts()
    ensures "add " == "add" + " " && "delete " == "delete" + " "
  {
  }

  lemma KindsAreWords()
    ensures ' ' !in "filter" && ' ' !in "nat" && ' ' !in "prerouting" && ' ' !in "output"
  {
  }

  lemma FilterLets(name: string)
    ensures LetsTheRest(["type", "filter", "hook", name] + Split("priority filter; policy accept;", ' '))
  {
    FilterInWords();
  }
}
