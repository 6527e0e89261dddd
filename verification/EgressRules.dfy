/** The confinement table of a machine, and the accounts its rules refuse. */
module EgressRules {
  import opened Wrappers
  import opened Lines
  import Machine
  import Tables

  const TABLE := "table inet your-cloud-egress"
  const SCOPE := "meta skuid "
  const LOOPBACK := " oifname \"lo\" accept"
  const REPLIES := " ct state established accept"
  const DROP := " drop"

  /** The comments of the table. What they say is not part of this model. */
  datatype Comments = Comments(one: seq<Row>, several: seq<Row>, loopback: seq<Row>, replies: seq<Row>, rest: seq<Row>)

  predicate AllCommentary(c: Comments) {
    CommentRows(c.one) && CommentRows(c.several) && CommentRows(c.loopback) && CommentRows(c.replies) && CommentRows(c.rest)
  }

  function RuleRow(identifier: int, rule: string): Row { Row(2, SCOPE + (Decimal(identifier) + rule)) }

  /** A rule under the reason it exists for. */
  function Reasoned(reason: seq<Row>, identifier: int, rule: string): seq<Row> {
    [Row(0, "")] + (reason + [RuleRow(identifier, rule)])
  }

  /** The same three rules for every account. */
  function Block(c: Comments, e: Machine.Confined): seq<Row> {
    Reasoned(c.loopback, e.identifier, LOOPBACK) + (Reasoned(c.replies, e.identifier, REPLIES) + Reasoned(c.rest, e.identifier, DROP))
  }

  function Blocks(c: Comments, confined: seq<Machine.Confined>): seq<Row> {
    if confined == [] then [] else Blocks(c, confined[..|confined| - 1]) + Block(c, confined[|confined| - 1])
  }

  function NameRow(e: Machine.Confined): Row { Row(0, "#   " + e.account) }

  function NameRows(confined: seq<Machine.Confined>): seq<Row> {
    seq(|confined|, i requires 0 <= i < |confined| => NameRow(confined[i]))
  }

  /** One account is named in a sentence, several in a list, and none leaves the line of the list empty. */
  function PreambleRows(c: Comments, confined: seq<Machine.Confined>): seq<Row> {
    if |confined| == 1 then c.one + [Row(0, "# The confined account is " + (confined[0].account + "."))]
    else c.several + (if confined == [] then [Row(0, "")] else NameRows(confined))
  }

  /** An administrator who reads the table finds every account it refuses, by its name. */
  lemma EveryAccountIsNamed(c: Comments, confined: seq<Machine.Confined>, i: nat)
    requires i < |confined|
    ensures exists r :: r in PreambleRows(c, confined) &&
              (r.content == "#   " + confined[i].account || r.content == "# The confined account is " + (confined[i].account + "."))
  {
    var only := Row(0, "# The confined account is " + (confined[0].account + "."));
    if |confined| == 1 {
      assert (c.one + [only])[|c.one|] == only;
      assert only in PreambleRows(c, confined);
    } else {
      var named := NameRows(confined)[i];
      assert (c.several + NameRows(confined))[|c.several| + i] == named;
      assert named in PreambleRows(c, confined);
    }
  }

  const OPENING := [Row(0, "add " + TABLE), Row(0, "delete " + TABLE), Row(0, TABLE + " {")]
  const CHAIN := [Row(1, "chain output {"), Row(2, "type filter hook output" + " priority filter; policy accept;")]
  const CLOSING := [Row(1, "}"), Row(0, "}")]

  function RuleRows(c: Comments, confined: seq<Machine.Confined>): seq<Row> {
    PreambleRows(c, confined) + (OPENING + (CHAIN + (Blocks(c, confined) + CLOSING)))
  }

  function RenderEgressRules(c: Comments, confined: seq<Machine.Confined>): string { Rendered(RuleRows(c, confined)) }

  // ---- What a loaded table refuses

  /** The account a rule refuses everything of, if it is such a rule. */
  function RefusedBy(rule: string): Option<int> {
    if !(SCOPE <= rule) || |rule| < |SCOPE| + |DROP| || rule[|rule| - |DROP|..] != DROP then None
    else Spelled(rule[|SCOPE|..|rule| - |DROP|])
  }

  function RefusedAmong(lines: seq<string>): set<int> {
    if lines == [] then {}
    else (if RefusedBy(Trim(lines[0])).Some? then {RefusedBy(Trim(lines[0])).value} else {}) + RefusedAmong(lines[1..])
  }

  function Confines(rules: string): set<int> { RefusedAmong(Split(rules, '\n')) }

  function RefusedIn(rows: seq<Row>): set<int> {
    if rows == [] then {}
    else (if RefusedBy(rows[0].content).Some? then {RefusedBy(rows[0].content).value} else {}) + RefusedIn(rows[1..])
  }

  lemma {:induction false} RefusedOfBoth(a: seq<Row>, b: seq<Row>)
    ensures RefusedIn(a + b) == RefusedIn(a) + RefusedIn(b)
    decreases |a|
  {
    if a == [] {
      assert a + b == b;
    } else {
      assert (a + b)[1..] == a[1..] + b;
      RefusedOfBoth(a[1..], b);
    }
  }

  lemma {:induction false} RowsRefuseWhatTheirLinesDo(rows: seq<Row>, rest: seq<string>)
    requires Tables.AllLaid(rows)
    ensures RefusedAmong(LinesOf(rows) + rest) == RefusedIn(rows) + RefusedAmong(rest)
    decreases |rows|
  {
    if rows == [] {
      assert LinesOf(rows) + rest == rest;
    } else {
      assert rows[0] in rows;
      TrimmedRow(rows[0]);
      var lines := LinesOf(rows) + rest;
      assert lines[0] == LineOf(rows[0]) && lines[1..] == LinesOf(rows[1..]) + rest;
      RowsRefuseWhatTheirLinesDo(rows[1..], rest);
    }
  }

  /** Rows about something else than an account refuse nothing. */
  predicate Mute(rows: seq<Row>) { forall r :: r in rows ==> Tables.Laid(r) && (r.content == "" || r.content[0] != 'm') }

  lemma {:induction false} MuteRowsRefuseNothing(rows: seq<Row>)
    requires Mute(rows)
    ensures RefusedIn(rows) == {} && Tables.AllLaid(rows)
    decreases |rows|
  {
    assert SCOPE[0] == 'm';
    if rows != [] {
      assert rows[0] in rows;
      MuteRowsRefuseNothing(rows[1..]);
    }
  }

  lemma MuteRow(depth: nat, a: string, b: string)
    requires OneLine(a) && OneLine(b) && a != "" && !IsSpace(a[0]) && a[0] != 'm'
    requires (b == "" && !IsSpace(a[|a| - 1])) || (b != "" && !IsSpace(b[|b| - 1]))
    ensures Mute([Row(depth, a + b)])
  {
    if b == "" {
      assert a + b == a;
    } else {
      Composed(a, b);
    }
  }

  lemma FrameIsMute()
    ensures Mute(OPENING) && Mute(CLOSING) && Mute([Row(0, "")])
  {
    assert OneLine(TABLE) && TABLE[0] == 't' && TABLE[|TABLE| - 1] == 's';
    MuteRow(0, "add ", TABLE);
    MuteRow(0, "delete ", TABLE);
    MuteRow(0, TABLE, " {");
    MuteRow(0, "}", "");
    MuteRow(1, "}", "");
  }

  lemma ChainIsMute()
    ensures Mute(CHAIN)
  {
    MuteRow(1, "chain output", " {");
    MuteRow(2, "type filter hook output", " priority filter; policy accept;");
    assert "chain output" + " {" == "chain output {";
  }

  lemma CommentsAreMute(rows: seq<Row>)
    requires CommentRows(rows)
    ensures Mute(rows)
  {
  }

  // ---- The three rules of one account

  lemma ScopedRow(identifier: int, rule: string)
    requires OneLine(rule) && rule != "" && !IsSpace(rule[|rule| - 1])
    ensures Tables.Laid(RuleRow(identifier, rule))
  {
    AtoiOfDecimal(identifier);
    assert OneLine(SCOPE) && SCOPE[0] == 'm';
    Composed(SCOPE, Decimal(identifier) + rule);
  }

  lemma DropNames(middle: string)
    ensures RefusedBy(SCOPE + (middle + DROP)) == Spelled(middle)
  {
    var rule := SCOPE + (middle + DROP);
    assert rule[|rule| - |DROP|..] == DROP;
    assert rule[|SCOPE|..|rule| - |DROP|] == middle;
  }

  lemma OneRowRefuses(r: Row)
    ensures RefusedIn([r]) == if RefusedBy(r.content).Some? then {RefusedBy(r.content).value} else {}
  {
    assert [r][1..] == [];
  }

  lemma DropIsOneLine()
    ensures OneLine(DROP) && DROP != "" && DROP[|DROP| - 1] == 'p'
  {
  }

  lemma DropIsRead(identifier: int)
    ensures Tables.Laid(RuleRow(identifier, DROP)) && RefusedIn([RuleRow(identifier, DROP)]) == {identifier}
  {
    DropIsOneLine();
    ScopedRow(identifier, DROP);
    AtoiOfDecimal(identifier);
    DropNames(Decimal(identifier));
    OneRowRefuses(RuleRow(identifier, DROP));
  }

  lemma AcceptIsNoDrop(identifier: int, rule: string)
    requires rule == LOOPBACK || rule == REPLIES
    ensures Tables.Laid(RuleRow(identifier, rule)) && RefusedIn([RuleRow(identifier, rule)]) == {}
  {
    assert OneLine(LOOPBACK) && LOOPBACK[|LOOPBACK| - 1] == 't';
    assert OneLine(REPLIES) && REPLIES[|REPLIES| - 1] == 't';
    ScopedRow(identifier, rule);
    var content := RuleRow(identifier, rule).content;
    assert content[|content| - 1] == 't' && DROP[|DROP| - 1] == 'p';
    assert [RuleRow(identifier, rule)][1..] == [];
  }

  lemma ReasonRefusesNothing(reason: seq<Row>, identifier: int, rule: string)
    requires CommentRows(reason) && Tables.Laid(RuleRow(identifier, rule))
    ensures Tables.AllLaid(Reasoned(reason, identifier, rule))
    ensures RefusedIn(Reasoned(reason, identifier, rule)) == RefusedIn([RuleRow(identifier, rule)])
  {
    var blank := [Row(0, "")];
    FrameIsMute();
    MuteRowsRefuseNothing(blank);
    CommentsAreMute(reason);
    MuteRowsRefuseNothing(reason);
    RefusedOfBoth(reason, [RuleRow(identifier, rule)]);
    RefusedOfBoth(blank, reason + [RuleRow(identifier, rule)]);
  }

  lemma BlockRefusesItsAccount(c: Comments, e: Machine.Confined)
    requires AllCommentary(c)
    ensures Tables.AllLaid(Block(c, e)) && RefusedIn(Block(c, e)) == {e.identifier}
  {
    DropIsRead(e.identifier);
    AcceptIsNoDrop(e.identifier, LOOPBACK);
    AcceptIsNoDrop(e.identifier, REPLIES);
    ReasonRefusesNothing(c.loopback, e.identifier, LOOPBACK);
    ReasonRefusesNothing(c.replies, e.identifier, REPLIES);
    ReasonRefusesNothing(c.rest, e.identifier, DROP);
    var second := Reasoned(c.replies, e.identifier, REPLIES);
    var third := Reasoned(c.rest, e.identifier, DROP);
    RefusedOfBoth(second, third);
    RefusedOfBoth(Reasoned(c.loopback, e.identifier, LOOPBACK), second + third);
  }

  lemma {:induction false} BlocksRefuseTheirAccounts(c: Comments, confined: seq<Machine.Confined>)
    requires AllCommentary(c)
    ensures Tables.AllLaid(Blocks(c, confined)) && RefusedIn(Blocks(c, confined)) == Machine.Identifiers(confined)
    decreases |confined|
  {
    if confined != [] {
      var front, last := confined[..|confined| - 1], confined[|confined| - 1];
      BlocksRefuseTheirAccounts(c, front);
      BlockRefusesItsAccount(c, last);
      RefusedOfBoth(Blocks(c, front), Block(c, last));
      IdentifiersOneByOne(confined);
    }
  }

  lemma IdentifiersOneByOne(confined: seq<Machine.Confined>)
    requires confined != []
    ensures Machine.Identifiers(confined) == Machine.Identifiers(confined[..|confined| - 1]) + {confined[|confined| - 1].identifier}
  {
    var n := |confined| - 1;
    forall id ensures id in Machine.Identifiers(confined) <==> id in Machine.Identifiers(confined[..n]) + {confined[n].identifier} {
      if id in Machine.Identifiers(confined) {
        var i :| 0 <= i < |confined| && confined[i].identifier == id;
        assert i < n ==> confined[..n][i].identifier == id;
      }
      if id in Machine.Identifiers(confined[..n]) {
        var i :| 0 <= i < n && confined[..n][i].identifier == id;
        assert confined[i].identifier == id;
      }
    }
  }

  /** An account named on one line, and closing on no space. */
  predicate Nameable(account: string) { OneLine(account) && account != "" && !IsSpace(account[|account| - 1]) }

  lemma NamesAreMute(confined: seq<Machine.Confined>)
    requires forall i :: 0 <= i < |confined| ==> Nameable(confined[i].account)
    ensures Mute(NameRows(confined))
  {
    forall i | 0 <= i < |confined| ensures Mute([NameRow(confined[i])]) {
      MuteRow(0, "#   ", confined[i].account);
    }
    forall r | r in NameRows(confined) ensures Tables.Laid(r) && (r.content == "" || r.content[0] != 'm') {
      var i :| 0 <= i < |confined| && NameRows(confined)[i] == r;
      assert r in [NameRow(confined[i])];
    }
  }

  lemma PreambleIsMute(c: Comments, confined: seq<Machine.Confined>)
    requires AllCommentary(c) && forall i :: 0 <= i < |confined| ==> Nameable(confined[i].account)
    ensures Mute(PreambleRows(c, confined))
  {
    FrameIsMute();
    CommentsAreMute(c.one);
    CommentsAreMute(c.several);
    NamesAreMute(confined);
    if |confined| == 1 {
      MuteRow(0, "# The confined account is ", confined[0].account + ".");
    }
  }

  lemma MuteRowsAround(c: Comments, confined: seq<Machine.Confined>)
    requires AllCommentary(c) && forall i :: 0 <= i < |confined| ==> Nameable(confined[i].account)
    ensures RefusedIn(PreambleRows(c, confined)) == RefusedIn(OPENING) == RefusedIn(CHAIN) == RefusedIn(CLOSING) == {}
  {
    PreambleIsMute(c, confined);
    FrameIsMute();
    ChainIsMute();
    MuteRowsRefuseNothing(PreambleRows(c, confined));
    MuteRowsRefuseNothing(OPENING);
    MuteRowsRefuseNothing(CHAIN);
    MuteRowsRefuseNothing(CLOSING);
  }

  lemma RowsRefuseTheirAccounts(c: Comments, confined: seq<Machine.Confined>)
    requires AllCommentary(c) && forall i :: 0 <= i < |confined| ==> Nameable(confined[i].account)
    ensures RefusedIn(RuleRows(c, confined)) == Machine.Identifiers(confined)
  {
    MuteRowsAround(c, confined);
    BlocksRefuseTheirAccounts(c, confined);
    var body := Blocks(c, confined) + CLOSING;
    RefusedOfBoth(Blocks(c, confined), CLOSING);
    RefusedOfBoth(CHAIN, body);
    RefusedOfBoth(OPENING, CHAIN + body);
    RefusedOfBoth(PreambleRows(c, confined), OPENING + (CHAIN + body));
  }

  lemma RuleRowsAreLaid(c: Comments, confined: seq<Machine.Confined>)
    requires AllCommentary(c) && forall i :: 0 <= i < |confined| ==> Nameable(confined[i].account)
    ensures Tables.AllLaid(RuleRows(c, confined))
  {
    PreambleIsMute(c, confined);
    FrameIsMute();
    ChainIsMute();
    BlocksRefuseTheirAccounts(c, confined);
  }

  /** A table refuses exactly the accounts it was rendered for, by the identifiers it was given. */
  lemma RulesConfineExactly(c: Comments, confined: seq<Machine.Confined>)
    requires AllCommentary(c) && forall i :: 0 <= i < |confined| ==> Nameable(confined[i].account)
    ensures Confines(RenderEgressRules(c, confined)) == Machine.Identifiers(confined)
  {
    RowsRefuseTheirAccounts(c, confined);
    RuleRowsAreLaid(c, confined);
    TableRefusesWhatItsRowsDo(RuleRows(c, confined));
  }

  lemma TableRefusesWhatItsRowsDo(rows: seq<Row>)
    requires Tables.AllLaid(rows)
    ensures Confines(Rendered(rows)) == RefusedIn(rows)
  {
    TableLines(rows);
    RowsRefuseWhatTheirLinesDo(rows, [""]);
    NothingRefusedByAnEmptyLine();
  }

  lemma NothingRefusedByAnEmptyLine()
    ensures RefusedAmong([""]) == {}
  {
    assert [""][1..] == [];
  }
}
