/** The bounding table of each role, and the one port that can be read back from a listener's. */
module LinkRules {
  import opened Wrappers
  import opened Lines

  const INPUT := "iifname \"yc-link0\""
  const OUTPUT := "oifname \"yc-link0\""
  const SERVICE := OUTPUT + " ip daddr 10.66.66.2 tcp dport "
  const ACCEPT := " accept"
  const LISTEN_PORT := 51820

  /** The comments of a table stand where they stand; what they say is not part of this model. */
  datatype Comments = Comments(head: seq<Row>, endpoint: seq<Row>, incoming: seq<Row>, outgoing: seq<Row>, forwarded: seq<Row>)

  predicate AllCommentary(c: Comments) {
    CommentRows(c.head) && CommentRows(c.endpoint) && CommentRows(c.incoming) && CommentRows(c.outgoing) && CommentRows(c.forwarded)
  }

  const TABLE := "table inet your-cloud-link"
  const OPENING := [Row(0, "add " + TABLE), Row(0, "delete " + TABLE), Row(0, TABLE + " {")]
  const CLOSING := [Row(1, "}"), Row(0, "}")]
  const NEXT_CHAIN := [Row(1, "}"), Row(0, "")]

  const FILTER := " priority filter; policy accept;"
  const DESTINATION := " priority dstnat;"

  /** A base chain carries the name of the hook it stands on. */
  function Chain(kind: string, hook: string, priority: string): seq<Row> {
    [Row(1, "chain " + (hook + " {")), Row(2, "type " + (kind + (" hook " + (hook + priority)))), Row(0, "")]
  }

  function FilterChain(hook: string): seq<Row> { Chain("filter", hook, FILTER) }

  function ServiceRow(port: int): Row { Row(2, SERVICE + (Decimal(port) + ACCEPT)) }

  function BeforeService(c: Comments): seq<Row> {
    c.head + (OPENING + (FilterChain("input") + (c.endpoint
      + ([Row(2, "udp dport " + (Decimal(LISTEN_PORT) + ACCEPT)), Row(0, "")] + (c.incoming
      + ([Row(2, INPUT + " ct state established accept"), Row(2, INPUT + " drop")] + (NEXT_CHAIN
      + (FilterChain("output") + c.outgoing))))))))
  }

  function AfterService(c: Comments): seq<Row> {
    [Row(2, OUTPUT + " drop")] + (NEXT_CHAIN + (FilterChain("forward") + (c.forwarded
      + ([Row(2, INPUT + " drop"), Row(2, OUTPUT + " drop")] + CLOSING))))
  }

  function ListenerRows(c: Comments, port: int): seq<Row> { BeforeService(c) + ([ServiceRow(port)] + AfterService(c)) }

  function FromListener(port: int): string { INPUT + (" ip saddr 10.66.66.1 tcp dport " + Decimal(port)) }

  function RedirectionRow(port: int): Row { Row(2, FromListener(port) + (" dnat ip to 127.0.0.1:" + Decimal(port))) }

  function AdmissionRow(port: int): Row { Row(2, FromListener(port) + ACCEPT) }

  function LastChains(c: Comments): seq<Row> {
    FilterChain("output") + (c.outgoing
      + ([Row(2, OUTPUT + " ct state established accept"), Row(2, OUTPUT + " drop")] + (NEXT_CHAIN
      + (FilterChain("forward") + (c.forwarded
      + ([Row(2, INPUT + " drop"), Row(2, OUTPUT + " drop")] + CLOSING))))))
  }

  /** The machine of the LAN answers and never reaches out: no line of it names a destination. */
  function InitiatorRows(c: Comments, port: int): seq<Row> {
    c.head + (OPENING + (Chain("nat", "prerouting", DESTINATION) + (c.endpoint + ([RedirectionRow(port)] + (NEXT_CHAIN
      + (FilterChain("input") + (c.incoming + ([AdmissionRow(port), Row(2, INPUT + " drop")] + (NEXT_CHAIN + LastChains(c))))))))))
  }

  // ---- What is read back

  predicate Skipped(trimmed: string) {
    || trimmed == "" || "#" <= trimmed || "add table " <= trimmed || "delete table " <= trimmed
    || "table " <= trimmed || "chain " <= trimmed || "type " <= trimmed || trimmed == "}"
  }

  /** linkRuleLines: every rule of a table, its comments, its chains and its braces left out. */
  function RuleLines(lines: seq<string>): seq<string> {
    if lines == [] then []
    else if Skipped(Trim(lines[0])) then RuleLines(lines[1..])
    else [Trim(lines[0])] + RuleLines(lines[1..])
  }

  /** The port a rule about the service names, if it ends as an acceptance. */
  function PortIn(rest: string): Option<int> {
    if |rest| < |ACCEPT| || rest[|rest| - |ACCEPT|..] != ACCEPT then None else Atoi(rest[..|rest| - |ACCEPT|])
  }

  function PortAmong(rules: seq<string>): Option<int> {
    if rules == [] then None
    else if !(SERVICE <= rules[0]) then PortAmong(rules[1..])
    else PortIn(rules[0][|SERVICE|..])
  }

  function ApprovedServicePort(rules: string): Option<int> { PortAmong(RuleLines(Split(rules, '\n'))) }

  method LinkRuleLines(split: seq<string>) returns (lines: seq<string>)
    ensures lines == RuleLines(split)
  {
    lines := [];
    for n := 0 to |split|
      invariant lines + RuleLines(split[n..]) == RuleLines(split)
    {
      var rest := split[n..];
      assert rest[0] == split[n] && rest[1..] == split[n + 1..];
      var trimmed := Trim(rest[0]);
      if !Skipped(trimmed) {
        Regrouped(lines, [trimmed], RuleLines(rest[1..]));
        lines := lines + [trimmed];
      }
    }
  }

  /** approvedServicePort: the first rule about the service decides, whatever it names. */
  method ReadApprovedPort(rules: string) returns (port: Option<int>)
    ensures port == ApprovedServicePort(rules)
  {
    var lines := LinkRuleLines(Split(rules, '\n'));
    for n := 0 to |lines|
      invariant PortAmong(lines) == PortAmong(lines[n..])
    {
      var rest := lines[n..];
      assert rest[0] == lines[n] && rest[1..] == lines[n + 1..];
      if SERVICE <= rest[0] {
        return PortIn(rest[0][|SERVICE|..]);
      }
    }
    port := None;
  }

  // ---- The table of a role, read

  /** A row that says nothing of the service: one line, tight, and on another subject. */
  predicate Silent(r: Row) { OneLine(r.content) && (r.content == "" || Tight(r.content)) && !(SERVICE <= r.content) && (r.content == "" ==> r.depth == 0) }

  predicate AllSilent(rows: seq<Row>) { forall r :: r in rows ==> Silent(r) }

  lemma {:induction false} SilentRowsArePassed(rows: seq<Row>, rest: seq<string>)
    requires AllSilent(rows)
    ensures PortAmong(RuleLines(LinesOf(rows) + rest)) == PortAmong(RuleLines(rest))
    decreases |rows|
  {
    if rows == [] {
      assert LinesOf(rows) + rest == rest;
    } else {
      assert rows[0] in rows;
      TrimmedRow(rows[0]);
      var lines := LinesOf(rows) + rest;
      assert lines[0] == LineOf(rows[0]) && lines[1..] == LinesOf(rows[1..]) + rest;
      SilentRowsArePassed(rows[1..], rest);
      if !Skipped(Trim(lines[0])) {
        OneRuleThenMore(Trim(lines[0]), RuleLines(lines[1..]));
      }
    }
  }

  lemma OneRuleThenMore(rule: string, more: seq<string>)
    requires !(SERVICE <= rule)
    ensures PortAmong([rule] + more) == PortAmong(more)
  {
    assert ([rule] + more)[1..] == more;
  }

  lemma AcceptedPortIsRead(port: int)
    requires LEAST <= port <= GREATEST
    ensures PortIn(Decimal(port) + ACCEPT) == Some(port)
  {
    AtoiOfDecimal(port);
    var rest := Decimal(port) + ACCEPT;
    assert rest[|rest| - |ACCEPT|..] == ACCEPT && rest[..|rest| - |ACCEPT|] == Decimal(port);
  }

  lemma OutputIsNotSkipped(content: string)
    requires content != "" && content[0] == 'o'
    ensures !Skipped(content)
  {
  }

  lemma ServiceRowIsRead(port: int, more: seq<string>)
    requires LEAST <= port <= GREATEST
    ensures PortAmong(RuleLines([LineOf(ServiceRow(port))] + more)) == Some(port)
  {
    var content := ServiceRow(port).content;
    ServiceRowIsTight(port);
    TrimIndented(2, content);
    OutputIsNotSkipped(content);
    AcceptedPortIsRead(port);
    var lines := [LineOf(ServiceRow(port))] + more;
    assert lines[0] == LineOf(ServiceRow(port)) && lines[1..] == more;
    RuleAboutTheService(Decimal(port) + ACCEPT, RuleLines(more));
  }

  lemma RuleAboutTheService(rest: string, more: seq<string>)
    ensures PortAmong([SERVICE + rest] + more) == PortIn(rest)
  {
    assert (SERVICE + rest)[|SERVICE|..] == rest;
  }

  lemma ServiceRowIsTight(port: int)
    ensures Tight(ServiceRow(port).content) && OneLine(ServiceRow(port).content)
    ensures ServiceRow(port).content[0] == 'o'
  {
    AtoiOfDecimal(port);
    AcceptIsOneLine();
    ServiceIsOneLine();
    Composed(SERVICE, Decimal(port) + ACCEPT);
  }

  lemma ServiceIsOneLine()
    ensures OneLine(SERVICE) && SERVICE != "" && SERVICE[0] == 'o'
  {
    assert OneLine(OUTPUT) && OneLine(" ip daddr 10.66.66.2 tcp dport ") && OUTPUT[0] == 'o';
  }

  /** A table of silent rows names no port. */
  lemma SilentTableNamesNoPort(rows: seq<Row>)
    requires AllSilent(rows)
    ensures ApprovedServicePort(Rendered(rows)) == None
  {
    TableLines(rows);
    SilentRowsArePassed(rows, [""]);
    assert [""][1..] == [];
  }

  /** The one row about the service decides, wherever it stands among silent ones. */
  lemma ServiceTableNamesItsPort(before: seq<Row>, port: int, after: seq<Row>)
    requires AllSilent(before) && AllSilent(after) && LEAST <= port <= GREATEST
    ensures ApprovedServicePort(Rendered(before + ([ServiceRow(port)] + after))) == Some(port)
  {
    var service := [LineOf(ServiceRow(port))];
    ServiceRowIsTight(port);
    TableLines(before + ([ServiceRow(port)] + after));
    assert LinesOf(before + ([ServiceRow(port)] + after)) == LinesOf(before) + (service + LinesOf(after));
    Regrouped(LinesOf(before), service + LinesOf(after), [""]);
    Regrouped(service, LinesOf(after), [""]);
    SilentRowsArePassed(before, service + (LinesOf(after) + [""]));
    ServiceRowIsRead(port, LinesOf(after) + [""]);
  }

  // ---- The rows of the two tables

  lemma OtherSubject(r: Row)
    requires OneLine(r.content) && Tight(r.content) && r.content[0] != 'o'
    ensures Silent(r)
  {
    assert SERVICE[0] == 'o';
  }

  lemma CommentsAreSilent(rows: seq<Row>)
    requires CommentRows(rows)
    ensures AllSilent(rows)
  {
    forall r | r in rows ensures Silent(r) {
      OtherSubject(r);
    }
  }

  lemma BothSilent(a: seq<Row>, b: seq<Row>)
    requires AllSilent(a) && AllSilent(b)
    ensures AllSilent(a + b)
  {
  }

  lemma ComposedIsSilent(depth: nat, a: string, b: string)
    requires OneLine(a) && OneLine(b) && a != "" && b != "" && !IsSpace(a[0]) && !IsSpace(b[|b| - 1]) && a[0] != 'o'
    ensures Silent(Row(depth, a + b))
  {
    Composed(a, b);
    OtherSubject(Row(depth, a + b));
  }

  lemma TableIsOneLine()
    ensures OneLine(TABLE) && TABLE != "" && TABLE[0] == 't' && TABLE[|TABLE| - 1] == 'k'
  {
  }

  lemma OpeningIsSilent()
    ensures AllSilent(OPENING)
  {
    TableIsOneLine();
    ComposedIsSilent(0, "add ", TABLE);
    ComposedIsSilent(0, "delete ", TABLE);
    ComposedIsSilent(0, TABLE, " {");
  }

  lemma BracesAreSilent()
    ensures AllSilent(CLOSING) && AllSilent(NEXT_CHAIN)
  {
    OtherSubject(Row(0, "}"));
    OtherSubject(Row(1, "}"));
    EmptyRowIsSilent();
  }

  lemma EmptyRowIsSilent()
    ensures Silent(Row(0, ""))
  {
    assert SERVICE[0] == 'o';
  }

  lemma ChainIsSilent(kind: string, hook: string, priority: string)
    requires OneLine(kind) && OneLine(hook) && (priority == FILTER || priority == DESTINATION)
    ensures AllSilent(Chain(kind, hook, priority))
  {
    PrioritiesAreOneLine();
    ComposedIsSilent(1, "chain ", hook + " {");
    var rest := kind + (" hook " + (hook + priority));
    assert rest[|rest| - 1] == priority[|priority| - 1];
    ComposedIsSilent(2, "type ", rest);
    EmptyRowIsSilent();
  }

  lemma PrioritiesAreOneLine()
    ensures OneLine(FILTER) && FILTER != "" && FILTER[|FILTER| - 1] == ';'
    ensures OneLine(DESTINATION) && DESTINATION != "" && DESTINATION[|DESTINATION| - 1] == ';'
  {
  }

  /** What arrives by the passage is another subject, whatever the rule says of it. */
  lemma IncomingIsSilent(rest: string)
    requires OneLine(rest) && rest != "" && !IsSpace(rest[|rest| - 1])
    ensures Silent(Row(2, INPUT + rest))
  {
    assert INPUT[0] == 'i' && OneLine(INPUT);
    OtherSubject(Row(2, INPUT + rest));
  }

  /** What leaves by it without naming the peer is not the service. */
  lemma OutgoingIsSilent(rest: string)
    requires OneLine(rest) && |rest| >= 2 && rest[1] != 'i' && !IsSpace(rest[|rest| - 1])
    ensures Silent(Row(2, OUTPUT + rest))
  {
    assert OUTPUT[0] == 'o' && OneLine(OUTPUT);
    assert SERVICE[|OUTPUT| + 1] == 'i' && (OUTPUT + rest)[|OUTPUT| + 1] == rest[1];
  }

  lemma DropsAreSilent()
    ensures AllSilent([Row(2, INPUT + " drop"), Row(2, OUTPUT + " drop")])
  {
    IncomingIsSilent(" drop");
    OutgoingIsSilent(" drop");
  }

  lemma RepliesAreSilent()
    ensures AllSilent([Row(2, INPUT + " ct state established accept"), Row(2, INPUT + " drop")])
    ensures AllSilent([Row(2, OUTPUT + " ct state established accept"), Row(2, OUTPUT + " drop")])
  {
    DropsAreSilent();
    IncomingIsSilent(" ct state established accept");
    OutgoingIsSilent(" ct state established accept");
  }

  lemma AcceptIsOneLine()
    ensures OneLine(ACCEPT) && ACCEPT != "" && ACCEPT[|ACCEPT| - 1] == 't'
  {
  }

  lemma EndpointIsSilent()
    ensures AllSilent([Row(2, "udp dport " + (Decimal(LISTEN_PORT) + ACCEPT)), Row(0, "")])
  {
    AcceptIsOneLine();
    AtoiOfDecimal(LISTEN_PORT);
    ComposedIsSilent(2, "udp dport ", Decimal(LISTEN_PORT) + ACCEPT);
    EmptyRowIsSilent();
  }

  lemma FramesAreSilent(c: Comments)
    requires AllCommentary(c)
    ensures AllSilent(c.head) && AllSilent(c.endpoint) && AllSilent(c.incoming) && AllSilent(c.outgoing) && AllSilent(c.forwarded)
    ensures AllSilent(OPENING) && AllSilent(CLOSING) && AllSilent(NEXT_CHAIN)
  {
    CommentsAreSilent(c.head);
    CommentsAreSilent(c.endpoint);
    CommentsAreSilent(c.incoming);
    CommentsAreSilent(c.outgoing);
    CommentsAreSilent(c.forwarded);
    OpeningIsSilent();
    BracesAreSilent();
  }

  lemma BeforeServiceIsSilent(c: Comments)
    requires AllCommentary(c)
    ensures AllSilent(BeforeService(c))
  {
    FramesAreSilent(c);
    ChainIsSilent("filter", "output", FILTER);
    BothSilent(FilterChain("output"), c.outgoing);
    var f := NEXT_CHAIN + (FilterChain("output") + c.outgoing);
    BothSilent(NEXT_CHAIN, FilterChain("output") + c.outgoing);
    RepliesAreSilent();
    var e := [Row(2, INPUT + " ct state established accept"), Row(2, INPUT + " drop")] + f;
    BothSilent([Row(2, INPUT + " ct state established accept"), Row(2, INPUT + " drop")], f);
    BothSilent(c.incoming, e);
    EndpointIsSilent();
    var d := [Row(2, "udp dport " + (Decimal(LISTEN_PORT) + ACCEPT)), Row(0, "")] + (c.incoming + e);
    BothSilent([Row(2, "udp dport " + (Decimal(LISTEN_PORT) + ACCEPT)), Row(0, "")], c.incoming + e);
    BothSilent(c.endpoint, d);
    ChainIsSilent("filter", "input", FILTER);
    BothSilent(FilterChain("input"), c.endpoint + d);
    var b := FilterChain("input") + (c.endpoint + d);
    BothSilent(OPENING, b);
    BothSilent(c.head, OPENING + b);
  }

  lemma LastChainIsSilent(c: Comments)
    requires AllCommentary(c)
    ensures AllSilent(FilterChain("forward") + (c.forwarded + ([Row(2, INPUT + " drop"), Row(2, OUTPUT + " drop")] + CLOSING)))
  {
    FramesAreSilent(c);
    DropsAreSilent();
    var g := [Row(2, INPUT + " drop"), Row(2, OUTPUT + " drop")] + CLOSING;
    BothSilent([Row(2, INPUT + " drop"), Row(2, OUTPUT + " drop")], CLOSING);
    BothSilent(c.forwarded, g);
    ChainIsSilent("filter", "forward", FILTER);
    BothSilent(FilterChain("forward"), c.forwarded + g);
  }

  lemma AfterServiceIsSilent(c: Comments)
    requires AllCommentary(c)
    ensures AllSilent(AfterService(c))
  {
    FramesAreSilent(c);
    LastChainIsSilent(c);
    var h := FilterChain("forward") + (c.forwarded + ([Row(2, INPUT + " drop"), Row(2, OUTPUT + " drop")] + CLOSING));
    BothSilent(NEXT_CHAIN, h);
    OutgoingIsSilent(" drop");
    BothSilent([Row(2, OUTPUT + " drop")], NEXT_CHAIN + h);
  }

  /** The port a junction approved is the port its listener's table is read to let through. */
  lemma ListenerPortReadsBack(c: Comments, port: int)
    requires AllCommentary(c) && LEAST <= port <= GREATEST
    ensures ApprovedServicePort(Rendered(ListenerRows(c, port))) == Some(port)
  {
    BeforeServiceIsSilent(c);
    AfterServiceIsSilent(c);
    ServiceTableNamesItsPort(BeforeService(c), port, AfterService(c));
  }

  /** Two tables of a listener are one table exactly when they bound the same port. */
  lemma ListenerTablesDiffer(c: Comments, port: int, other: int)
    requires AllCommentary(c) && LEAST <= port <= GREATEST && LEAST <= other <= GREATEST
    ensures Rendered(ListenerRows(c, port)) == Rendered(ListenerRows(c, other)) <==> port == other
  {
    ListenerPortReadsBack(c, port);
    ListenerPortReadsBack(c, other);
  }

  lemma FromListenerIsSilent(port: int, rest: string)
    requires OneLine(rest) && rest != "" && !IsSpace(rest[|rest| - 1])
    ensures Silent(Row(2, FromListener(port) + rest))
  {
    AtoiOfDecimal(port);
    FromListenerIsOneLine(port);
    ComposedIsSilent(2, FromListener(port), rest);
  }

  lemma FromListenerIsOneLine(port: int)
    ensures OneLine(FromListener(port)) && FromListener(port) != "" && FromListener(port)[0] == 'i'
  {
    AtoiOfDecimal(port);
    InputIsOneLine();
    SourceIsOneLine();
    OneLineOfBoth(" ip saddr 10.66.66.1 tcp dport ", Decimal(port));
    OneLineOfBoth(INPUT, " ip saddr 10.66.66.1 tcp dport " + Decimal(port));
  }

  lemma InputIsOneLine()
    ensures OneLine(INPUT) && INPUT != "" && INPUT[0] == 'i'
  {
  }

  lemma SourceIsOneLine()
    ensures OneLine(" ip saddr 10.66.66.1 tcp dport ")
  {
  }

  lemma RedirectionIsSilent(port: int)
    ensures Silent(RedirectionRow(port))
  {
    AtoiOfDecimal(port);
    var rest := " dnat ip to 127.0.0.1:" + Decimal(port);
    assert OneLine(" dnat ip to 127.0.0.1:");
    assert rest[|rest| - 1] == Decimal(port)[|Decimal(port)| - 1] && Decimal(port)[|Decimal(port)| - 1] in Decimal(port);
    FromListenerIsSilent(port, rest);
  }

  lemma AdmissionIsSilent(port: int)
    ensures AllSilent([AdmissionRow(port), Row(2, INPUT + " drop")])
  {
    AcceptIsOneLine();
    FromListenerIsSilent(port, ACCEPT);
    IncomingIsSilent(" drop");
  }

  lemma LastChainsAreSilent(c: Comments)
    requires AllCommentary(c)
    ensures AllSilent(LastChains(c))
  {
    FramesAreSilent(c);
    LastChainIsSilent(c);
    var h := FilterChain("forward") + (c.forwarded + ([Row(2, INPUT + " drop"), Row(2, OUTPUT + " drop")] + CLOSING));
    BothSilent(NEXT_CHAIN, h);
    RepliesAreSilent();
    var g := [Row(2, OUTPUT + " ct state established accept"), Row(2, OUTPUT + " drop")] + (NEXT_CHAIN + h);
    BothSilent([Row(2, OUTPUT + " ct state established accept"), Row(2, OUTPUT + " drop")], NEXT_CHAIN + h);
    BothSilent(c.outgoing, g);
    ChainIsSilent("filter", "output", FILTER);
    BothSilent(FilterChain("output"), c.outgoing + g);
  }

  lemma InitiatorIsSilent(c: Comments, port: int)
    requires AllCommentary(c)
    ensures AllSilent(InitiatorRows(c, port))
  {
    FramesAreSilent(c);
    LastChainsAreSilent(c);
    BothSilent(NEXT_CHAIN, LastChains(c));
    AdmissionIsSilent(port);
    var f := [AdmissionRow(port), Row(2, INPUT + " drop")] + (NEXT_CHAIN + LastChains(c));
    BothSilent([AdmissionRow(port), Row(2, INPUT + " drop")], NEXT_CHAIN + LastChains(c));
    BothSilent(c.incoming, f);
    ChainIsSilent("filter", "input", FILTER);
    var e := FilterChain("input") + (c.incoming + f);
    BothSilent(FilterChain("input"), c.incoming + f);
    BothSilent(NEXT_CHAIN, e);
    RedirectionIsSilent(port);
    var d := [RedirectionRow(port)] + (NEXT_CHAIN + e);
    BothSilent([RedirectionRow(port)], NEXT_CHAIN + e);
    BothSilent(c.endpoint, d);
    ChainIsSilent("nat", "prerouting", DESTINATION);
    var b := Chain("nat", "prerouting", DESTINATION) + (c.endpoint + d);
    BothSilent(Chain("nat", "prerouting", DESTINATION), c.endpoint + d);
    BothSilent(OPENING, b);
    BothSilent(c.head, OPENING + b);
  }

  /** An initiator's table lets nothing out that could be read as the approved service. */
  lemma InitiatorNamesNoPort(c: Comments, port: int)
    requires AllCommentary(c)
    ensures ApprovedServicePort(Rendered(InitiatorRows(c, port))) == None
  {
    InitiatorIsSilent(c, port);
    SilentTableNamesNoPort(InitiatorRows(c, port));
  }
}
