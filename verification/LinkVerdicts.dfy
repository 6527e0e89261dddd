/** What the bounding table of each role does to a packet, read from its text. */
module LinkVerdicts {
  import opened Wrappers
  import opened Lines
  import opened Tables
  import opened LinkRules
  import Passage

  // ---- The words of the rules

  lemma InputText()
    ensures INPUT == "iifname" + (" " + Passage.INTERFACE) && INPUT != "" && INPUT[0] == 'i'
  {
  }

  lemma OutputText()
    ensures OUTPUT == "oifname" + (" " + Passage.INTERFACE) && OUTPUT != "" && OUTPUT[0] == 'o'
  {
  }

  lemma InterfaceIsOneWord()
    ensures ' ' !in Passage.INTERFACE && ' ' !in "iifname" && ' ' !in "oifname"
  {
  }

  lemma ScopesInWords()
    ensures Split(INPUT, ' ') == ["iifname", Passage.INTERFACE] && Split(OUTPUT, ' ') == ["oifname", Passage.INTERFACE]
    ensures INPUT != "" && INPUT[0] == 'i' && OUTPUT != "" && OUTPUT[0] == 'o'
  {
    InputText();
    OutputText();
    InterfaceIsOneWord();
    TwoWords("iifname", Passage.INTERFACE);
    TwoWords("oifname", Passage.INTERFACE);
  }

  lemma AcceptedNumber(n: int)
    ensures Split(Decimal(n) + ACCEPT, ' ') == [Decimal(n)] + ["accept"]
  {
    NumberIsOneWord(n);
    assert ACCEPT == " " + "accept";
    FirstWord(Decimal(n), "accept");
    OneWord("accept");
  }

  /** A rule about what arrives by the passage. */
  lemma InputRow(tail: string, w: seq<string>, hook: string, inside: bool, p: Packet)
    requires Split(tail, ' ') == w
    ensures Walk([Row(2, INPUT + (" " + tail))], hook, inside, p) ==
              if inside && p.arrives == Passage.INTERFACE && Judged(w, p).Some? then Decided(Judged(w, p).value) else Still(inside)
  {
    ScopesInWords();
    SplitJoins(INPUT, ' ', tail);
    Arriving(Passage.INTERFACE, w, p);
    Tables.RuleRow(Row(2, INPUT + (" " + tail)), ["iifname", Passage.INTERFACE] + w, hook, inside, p);
  }

  lemma OutputRow(tail: string, w: seq<string>, hook: string, inside: bool, p: Packet)
    requires Split(tail, ' ') == w
    ensures Walk([Row(2, OUTPUT + (" " + tail))], hook, inside, p) ==
              if inside && p.leaves == Passage.INTERFACE && Judged(w, p).Some? then Decided(Judged(w, p).value) else Still(inside)
  {
    ScopesInWords();
    SplitJoins(OUTPUT, ' ', tail);
    Leaving(Passage.INTERFACE, w, p);
    Tables.RuleRow(Row(2, OUTPUT + (" " + tail)), ["oifname", Passage.INTERFACE] + w, hook, inside, p);
  }

  lemma DropRows(hook: string, inside: bool, p: Packet)
    ensures Walk([Row(2, INPUT + " drop")], hook, inside, p) == if inside && p.arrives == Passage.INTERFACE then Decided(Drop) else Still(inside)
    ensures Walk([Row(2, OUTPUT + " drop")], hook, inside, p) == if inside && p.leaves == Passage.INTERFACE then Decided(Drop) else Still(inside)
  {
    assert " drop" == " " + "drop";
    OneWord("drop");
    Ending(p);
    InputRow("drop", ["drop"], hook, inside, p);
    OutputRow("drop", ["drop"], hook, inside, p);
  }

  lemma ReplyRows(hook: string, inside: bool, p: Packet)
    ensures Walk([Row(2, INPUT + " ct state established accept")], hook, inside, p) ==
              if inside && p.arrives == Passage.INTERFACE && p.established then Decided(Accept) else Still(inside)
    ensures Walk([Row(2, OUTPUT + " ct state established accept")], hook, inside, p) ==
              if inside && p.leaves == Passage.INTERFACE && p.established then Decided(Accept) else Still(inside)
  {
    RepliesInWords();
    Ending(p);
    Replying(["accept"], p);
    InputRow("ct state established accept", ["ct", "state", "established"] + ["accept"], hook, inside, p);
    OutputRow("ct state established accept", ["ct", "state", "established"] + ["accept"], hook, inside, p);
  }

  lemma EndpointRows(hook: string, inside: bool, p: Packet)
    ensures Walk([Row(2, "udp dport " + (Decimal(LISTEN_PORT) + ACCEPT)), Row(0, "")], hook, inside, p) ==
              if inside && p.protocol.Udp? && p.port == LISTEN_PORT then Decided(Accept) else Still(inside)
  {
    var endpoint := Row(2, "udp dport " + (Decimal(LISTEN_PORT) + ACCEPT));
    NumberIsOneWord(LISTEN_PORT);
    AcceptedNumber(LISTEN_PORT);
    UdpInWords(Decimal(LISTEN_PORT) + ACCEPT);
    Ending(p);
    OnUdp(Decimal(LISTEN_PORT), ["accept"], p);
    Tables.RuleRow(endpoint, ["udp", "dport", Decimal(LISTEN_PORT)] + ["accept"], hook, inside, p);
    EmptyRow(hook, inside, p);
    PairOfRows(endpoint, Row(0, ""), hook, inside, p);
  }

  lemma UdpInWords(rest: string)
    ensures Split("udp dport " + rest, ' ') == ["udp", "dport"] + Split(rest, ' ') && ("udp dport " + rest)[0] == 'u'
  {
    assert "udp dport " + rest == "udp" + (" " + ("dport" + (" " + rest)));
    FirstWord("udp", "dport" + (" " + rest));
    FirstWord("dport", rest);
  }

  lemma TcpInWords(rest: string)
    ensures Split("tcp dport " + rest, ' ') == ["tcp", "dport"] + Split(rest, ' ')
  {
    assert "tcp dport " + rest == "tcp" + (" " + ("dport" + (" " + rest)));
    FirstWord("tcp", "dport" + (" " + rest));
    FirstWord("dport", rest);
  }

  lemma AddressInWords(side: string, address: string, rest: string)
    requires ' ' !in side && ' ' !in address
    ensures Split("ip" + (" " + (side + (" " + (address + (" " + rest))))), ' ') == ["ip", side, address] + Split(rest, ' ')
  {
    FirstWord("ip", side + (" " + (address + (" " + rest))));
    FirstWord(side, address + (" " + rest));
    FirstWord(address, rest);
  }

  lemma ServiceRowWalks(port: int, hook: string, inside: bool, p: Packet)
    ensures Walk([ServiceRow(port)], hook, inside, p) ==
              if inside && p.leaves == Passage.INTERFACE && p.destination == Passage.INITIATOR_ADDRESS && p.protocol.Tcp? && p.port == port
              then Decided(Accept) else Still(inside)
  {
    NumberIsOneWord(port);
    AcceptedNumber(port);
    var rest := Decimal(port) + ACCEPT;
    TcpInWords(rest);
    AddressInWords("daddr", Passage.INITIATOR_ADDRESS, "tcp dport " + rest);
    var tail := "ip" + (" " + ("daddr" + (" " + (Passage.INITIATOR_ADDRESS + (" " + ("tcp dport " + rest))))));
    ServiceRowText(rest, tail);
    Ending(p);
    OnTcp(Decimal(port), ["accept"], p);
    var w := ["tcp", "dport", Decimal(port)] + ["accept"];
    Towards(Passage.INITIATOR_ADDRESS, w, p);
    OutputRow(tail, ["ip", "daddr", Passage.INITIATOR_ADDRESS] + w, hook, inside, p);
  }

  lemma ServiceRowText(rest: string, tail: string)
    requires tail == "ip" + (" " + ("daddr" + (" " + (Passage.INITIATOR_ADDRESS + (" " + ("tcp dport " + rest))))))
    ensures SERVICE + rest == OUTPUT + (" " + tail)
  {
    var head := " ip daddr 10.66.66.2 tcp dport ";
    assert head == " " + ("ip" + (" " + ("daddr" + (" " + ("10.66.66.2" + (" " + "tcp dport "))))));
    SixParts("ip", "daddr", "10.66.66.2", "tcp dport ", rest);
    Regrouped(OUTPUT, head, rest);
  }

  /** The two rules that name the listener: what it is redirected to, and what lets it in. */
  lemma FromListenerRow(port: int, tail: string, w: seq<string>, hook: string, inside: bool, p: Packet)
    requires Split(tail, ' ') == w && w != []
    ensures Walk([Row(2, FromListener(port) + (" " + tail))], hook, inside, p) ==
              if inside && p.arrives == Passage.INTERFACE && Passage.FromTheListener(port, p) && Judged(w, p).Some?
              then Decided(Judged(w, p).value) else Still(inside)
  {
    var rest := Decimal(port) + (" " + tail);
    var text := "ip" + (" " + ("saddr" + (" " + (Passage.LISTENER_ADDRESS + (" " + ("tcp dport " + rest))))));
    ListenerInWords(port, tail, text, w);
    FromListenerText(port, tail, text);
    ListenerJudged(port, w, p);
    InputRow(text, ListenerWords(port, w), hook, inside, p);
  }

  function ListenerWords(port: int, w: seq<string>): seq<string> {
    ["ip", "saddr", Passage.LISTENER_ADDRESS] + (["tcp", "dport", Decimal(port)] + w)
  }

  lemma ListenerInWords(port: int, tail: string, text: string, w: seq<string>)
    requires Split(tail, ' ') == w
    requires text == "ip" + (" " + ("saddr" + (" " + (Passage.LISTENER_ADDRESS + (" " + ("tcp dport " + (Decimal(port) + (" " + tail))))))))
    ensures Split(text, ' ') == ListenerWords(port, w)
  {
    NumberIsOneWord(port);
    FirstWord(Decimal(port), tail);
    ServiceInWords(port, tail, w);
    AddressInWords("saddr", Passage.LISTENER_ADDRESS, "tcp dport " + (Decimal(port) + (" " + tail)));
  }

  lemma ServiceInWords(port: int, tail: string, w: seq<string>)
    requires Split(Decimal(port) + (" " + tail), ' ') == [Decimal(port)] + w
    ensures Split("tcp dport " + (Decimal(port) + (" " + tail)), ' ') == ["tcp", "dport", Decimal(port)] + w
  {
    TcpInWords(Decimal(port) + (" " + tail));
  }

  lemma ListenerJudged(port: int, w: seq<string>, p: Packet)
    requires w != []
    ensures Judged(ListenerWords(port, w), p) == if Passage.FromTheListener(port, p) then Judged(w, p) else None
  {
    NumberIsOneWord(port);
    OnTcp(Decimal(port), w, p);
    SentBy(Passage.LISTENER_ADDRESS, ["tcp", "dport", Decimal(port)] + w, p);
  }

  lemma SourceText()
    ensures " ip saddr 10.66.66.1 tcp dport " == " " + ("ip" + (" " + ("saddr" + (" " + ("10.66.66.1" + (" " + "tcp dport "))))))
  {
  }

  lemma FromListenerText(port: int, tail: string, text: string)
    requires text == "ip" + (" " + ("saddr" + (" " + (Passage.LISTENER_ADDRESS + (" " + ("tcp dport " + (Decimal(port) + (" " + tail))))))))
    ensures FromListener(port) + (" " + tail) == INPUT + (" " + text)
  {
    var head, rest := " ip saddr 10.66.66.1 tcp dport ", Decimal(port) + (" " + tail);
    SourceText();
    Regrouped(INPUT, head + Decimal(port), " " + tail);
    Regrouped(head, Decimal(port), " " + tail);
    SixParts("ip", "saddr", "10.66.66.1", "tcp dport ", rest);
  }

  lemma SixParts(a: string, b: string, c: string, d: string, rest: string)
    ensures (" " + (a + (" " + (b + (" " + (c + (" " + d))))))) + rest == " " + (a + (" " + (b + (" " + (c + (" " + (d + rest)))))))
  {
    Regrouped(" ", a + (" " + (b + (" " + (c + (" " + d))))), rest);
    Regrouped(a, " " + (b + (" " + (c + (" " + d)))), rest);
    Regrouped(" ", b + (" " + (c + (" " + d))), rest);
    Regrouped(b, " " + (c + (" " + d)), rest);
    Regrouped(" ", c + (" " + d), rest);
    Regrouped(c, " " + d, rest);
    Regrouped(" ", d, rest);
  }

  lemma AdmissionRowWalks(port: int, hook: string, inside: bool, p: Packet)
    ensures Walk([AdmissionRow(port)], hook, inside, p) ==
              if inside && p.arrives == Passage.INTERFACE && Passage.FromTheListener(port, p) then Decided(Accept) else Still(inside)
  {
    assert ACCEPT == " " + "accept";
    OneWord("accept");
    Ending(p);
    FromListenerRow(port, "accept", ["accept"], hook, inside, p);
  }

  lemma DnatText(port: int)
    ensures " dnat ip to 127.0.0.1:" == " " + ("dnat" + (" " + ("ip" + (" " + ("to" + (" " + "127.0.0.1:"))))))
    ensures " dnat ip to 127.0.0.1:" + Decimal(port) == " " + ("dnat" + (" " + ("ip" + (" " + ("to" + (" " + ("127.0.0.1:" + Decimal(port))))))))
  {
    SixParts("dnat", "ip", "to", "127.0.0.1:", Decimal(port));
  }

  lemma TargetIsOneWord(port: int)
    ensures ' ' !in "127.0.0.1:" + Decimal(port)
  {
    NumberIsOneWord(port);
  }

  lemma RedirectionRowWalks(port: int, hook: string, inside: bool, p: Packet)
    ensures Walk([RedirectionRow(port)], hook, inside, p) ==
              if inside && p.arrives == Passage.INTERFACE && Passage.FromTheListener(port, p)
              then Decided(Redirect("127.0.0.1:" + Decimal(port))) else Still(inside)
  {
    TargetIsOneWord(port);
    var target := "127.0.0.1:" + Decimal(port);
    DnatInWords(target);
    Redirecting(target, p);
    DnatText(port);
    FromListenerRow(port, "dnat" + (" " + ("ip" + (" " + ("to" + (" " + target))))), ["dnat", "ip", "to"] + [target], hook, inside, p);
  }

  lemma DnatInWords(target: string)
    requires ' ' !in target
    ensures Split("dnat" + (" " + ("ip" + (" " + ("to" + (" " + target))))), ' ') == ["dnat", "ip", "to"] + [target]
  {
    FirstWord("dnat", "ip" + (" " + ("to" + (" " + target))));
    FirstWord("ip", "to" + (" " + target));
    FirstWord("to", target);
    OneWord(target);
  }

  // ---- The chains, from the last to the first

  lemma PrioritiesText()
    ensures FILTER == " " + "priority filter; policy accept;"
    ensures DESTINATION == " " + "priority dstnat;"
  {
  }

  lemma ChainRow(name: string, hook: string, inside: bool, p: Packet)
    ensures Walk([Row(1, "chain " + (name + " {"))], hook, inside, p) == Still(inside)
  {
    assert "chain " + (name + " {") == "chain" + (" " + (name + " {"));
    FrameRow(Row(1, "chain " + (name + " {")), "chain", name + " {", hook, inside, p);
  }

  lemma ChainWalks(kind: string, name: string, rest: string, hook: string, inside: bool, p: Packet)
    requires ' ' !in kind && ' ' !in name && LetsTheRest(["type", kind, "hook", name] + Split(rest, ' '))
    ensures Walk(Chain(kind, name, " " + rest), hook, inside, p) == Still(name == hook)
  {
    var opening, typed := Row(1, "chain " + (name + " {")), Row(2, "type " + (kind + (" hook " + (name + (" " + rest)))));
    ChainRow(name, hook, inside, p);
    KindText(kind, name, rest);
    TypeRow(typed, kind, name, rest, hook, inside, p);
    EmptyRow(hook, name == hook, p);
    ThreeRows(opening, typed, Row(0, ""), hook, inside, name == hook, p);
  }

  lemma NatLets()
    ensures LetsTheRest(["type", "nat", "hook", "prerouting"] + Split("priority dstnat;", ' '))
  {
    NatInWords();
  }

  lemma FilterChainWalks(name: string, hook: string, inside: bool, p: Packet)
    requires ' ' !in name
    ensures Walk(FilterChain(name), hook, inside, p) == Still(name == hook)
  {
    PrioritiesText();
    KindsAreWords();
    FilterLets(name);
    ChainWalks("filter", name, "priority filter; policy accept;", hook, inside, p);
  }

  lemma NatInWords()
    ensures Split("priority dstnat;", ' ') == ["priority", "dstnat;"]
  {
    assert "priority dstnat;" == "priority" + (" " + "dstnat;");
    TwoWords("priority", "dstnat;");
  }

  lemma NatChainWalks(hook: string, inside: bool, p: Packet)
    ensures Walk(Chain("nat", "prerouting", DESTINATION), hook, inside, p) == Still("prerouting" == hook)
  {
    PrioritiesText();
    KindsAreWords();
    NatLets();
    ChainWalks("nat", "prerouting", "priority dstnat;", hook, inside, p);
  }

  lemma BracesWalk(hook: string, inside: bool, p: Packet)
    ensures Walk(CLOSING, hook, inside, p) == Walk(NEXT_CHAIN, hook, inside, p) == Still(false)
  {
    ClosingRow(1, hook, inside, p);
    ClosingRow(0, hook, false, p);
    EmptyRow(hook, false, p);
    PairOfRows(Row(1, "}"), Row(0, "}"), hook, inside, p);
    PairOfRows(Row(1, "}"), Row(0, ""), hook, inside, p);
  }

  lemma OpeningWalks(hook: string, p: Packet)
    ensures Walk(OPENING, hook, false, p) == Still(false)
  {
    OpeningTexts();
    FrameRow(OPENING[0], "add", TABLE, hook, false, p);
    FrameRow(OPENING[1], "delete", TABLE, hook, false, p);
    FrameRow(OPENING[2], "table", "inet your-cloud-link {", hook, false, p);
    ThreeRows(OPENING[0], OPENING[1], OPENING[2], hook, false, false, p);
  }

  lemma OpeningTexts()
    ensures "add " + TABLE == "add" + (" " + TABLE) && "delete " + TABLE == "delete" + (" " + TABLE)
    ensures TABLE + " {" == "table" + (" " + "inet your-cloud-link {")
  {
    VerbTexts();
    Regrouped("add", " ", TABLE);
    Regrouped("delete", " ", TABLE);
    TableText();
    Regrouped("table", " " + "inet your-cloud-link", " {");
    Regrouped(" ", "inet your-cloud-link", " {");
    BraceText();
  }

  lemma TableText()
    ensures TABLE == "table" + (" " + "inet your-cloud-link")
  {
  }

  lemma BraceText()
    ensures "inet your-cloud-link" + " {" == "inet your-cloud-link {"
  {
  }

  lemma RelayRows(hook: string, inside: bool, p: Packet)
    ensures Walk([Row(2, INPUT + " drop"), Row(2, OUTPUT + " drop")], hook, inside, p) ==
              if inside && (p.arrives == Passage.INTERFACE || p.leaves == Passage.INTERFACE) then Decided(Drop) else Still(inside)
  {
    DropRows(hook, inside, p);
    PairOfRows(Row(2, INPUT + " drop"), Row(2, OUTPUT + " drop"), hook, inside, p);
  }

  lemma AnswerRows(hook: string, inside: bool, p: Packet)
    ensures Walk([Row(2, INPUT + " ct state established accept"), Row(2, INPUT + " drop")], hook, inside, p) ==
              if inside && p.arrives == Passage.INTERFACE then Decided(if p.established then Accept else Drop) else Still(inside)
    ensures Walk([Row(2, OUTPUT + " ct state established accept"), Row(2, OUTPUT + " drop")], hook, inside, p) ==
              if inside && p.leaves == Passage.INTERFACE then Decided(if p.established then Accept else Drop) else Still(inside)
  {
    DropRows(hook, inside, p);
    ReplyRows(hook, inside, p);
    PairOfRows(Row(2, INPUT + " ct state established accept"), Row(2, INPUT + " drop"), hook, inside, p);
    PairOfRows(Row(2, OUTPUT + " ct state established accept"), Row(2, OUTPUT + " drop"), hook, inside, p);
  }

  /** Both tables end on the chain that relays nothing. */
  function Relay(c: Comments): seq<Row> {
    FilterChain("forward") + (c.forwarded + ([Row(2, INPUT + " drop"), Row(2, OUTPUT + " drop")] + CLOSING))
  }

  lemma RelayWalks(c: Comments, hook: string, inside: bool, p: Packet)
    requires AllCommentary(c)
    ensures Walk(Relay(c), hook, inside, p) ==
              if hook == "forward" && (p.arrives == Passage.INTERFACE || p.leaves == Passage.INTERFACE) then Decided(Drop) else Still(false)
  {
    var here := "forward" == hook;
    var drops := [Row(2, INPUT + " drop"), Row(2, OUTPUT + " drop")];
    RelayRows(hook, here, p);
    BracesWalk(hook, here, p);
    WalkOfBoth(drops, CLOSING, hook, here, p);
    CommentsArePassed(c.forwarded, hook, here, p);
    Past(c.forwarded, drops + CLOSING, hook, here, here, p);
    FilterChainWalks("forward", hook, inside, p);
    Past(FilterChain("forward"), c.forwarded + (drops + CLOSING), hook, inside, here, p);
  }

  lemma AfterServiceWalks(c: Comments, hook: string, p: Packet)
    requires AllCommentary(c)
    ensures Walk(AfterService(c), hook, hook == "output", p) ==
              if hook == "output" && p.leaves == Passage.INTERFACE then Decided(Drop) else Walk(Relay(c), hook, false, p)
  {
    var here := hook == "output";
    DropRows(hook, here, p);
    BracesWalk(hook, here, p);
    Past(NEXT_CHAIN, Relay(c), hook, here, false, p);
    WalkOfBoth([Row(2, OUTPUT + " drop")], NEXT_CHAIN + Relay(c), hook, here, p);
    assert AfterService(c) == [Row(2, OUTPUT + " drop")] + (NEXT_CHAIN + Relay(c));
  }

  /** Everything a listener's table says before its one acceptance. */
  lemma BeforeServiceWalks(c: Comments, hook: string, p: Packet)
    requires AllCommentary(c)
    ensures Walk(BeforeService(c), hook, false, p) ==
              if hook != "input" then Still(hook == "output")
              else if p.protocol.Udp? && p.port == LISTEN_PORT then Decided(Accept)
              else if p.arrives == Passage.INTERFACE then Decided(if p.established then Accept else Drop)
              else Still(false)
  {
    var here := "input" == hook;
    var outgoing := NEXT_CHAIN + (FilterChain("output") + c.outgoing);
    OutgoingOpens(c, hook, here, p);
    var answers := [Row(2, INPUT + " ct state established accept"), Row(2, INPUT + " drop")];
    AnswerRows(hook, here, p);
    WalkOfBoth(answers, outgoing, hook, here, p);
    CommentsArePassed(c.incoming, hook, here, p);
    Past(c.incoming, answers + outgoing, hook, here, here, p);
    var endpoint := [Row(2, "udp dport " + (Decimal(LISTEN_PORT) + ACCEPT)), Row(0, "")];
    EndpointRows(hook, here, p);
    WalkOfBoth(endpoint, c.incoming + (answers + outgoing), hook, here, p);
    var rules := endpoint + (c.incoming + (answers + outgoing));
    CommentsArePassed(c.endpoint, hook, here, p);
    Past(c.endpoint, rules, hook, here, here, p);
    HeadWalks(c, "input", c.endpoint + rules, hook, p);
  }

  lemma OutgoingOpens(c: Comments, hook: string, inside: bool, p: Packet)
    requires AllCommentary(c)
    ensures Walk(NEXT_CHAIN + (FilterChain("output") + c.outgoing), hook, inside, p) == Still("output" == hook)
  {
    BracesWalk(hook, inside, p);
    FilterChainWalks("output", hook, false, p);
    CommentsArePassed(c.outgoing, hook, "output" == hook, p);
    Past(FilterChain("output"), c.outgoing, hook, false, "output" == hook, p);
    Past(NEXT_CHAIN, FilterChain("output") + c.outgoing, hook, inside, false, p);
  }

  lemma HeadWalks(c: Comments, name: string, rest: seq<Row>, hook: string, p: Packet)
    requires AllCommentary(c) && ' ' !in name
    ensures Walk(c.head + (OPENING + (FilterChain(name) + rest)), hook, false, p) == Walk(rest, hook, name == hook, p)
  {
    FilterChainWalks(name, hook, false, p);
    Past(FilterChain(name), rest, hook, false, name == hook, p);
    OpeningWalks(hook, p);
    Past(OPENING, FilterChain(name) + rest, hook, false, false, p);
    CommentsArePassed(c.head, hook, false, p);
    Past(c.head, OPENING + (FilterChain(name) + rest), hook, false, false, p);
  }

  lemma ListenerWalks(c: Comments, port: int, hook: string, p: Packet)
    requires AllCommentary(c)
    ensures var w := Walk(ListenerRows(c, port), hook, false, p);
            (if w.Decided? then w.verdict else Accept) == Passage.Carried(Passage.Listener, port, hook, p)
  {
    var here := hook == "output";
    BeforeServiceWalks(c, hook, p);
    ServiceRowWalks(port, hook, here, p);
    AfterServiceWalks(c, hook, p);
    RelayWalks(c, hook, false, p);
    WalkOfBoth([ServiceRow(port)], AfterService(c), hook, here, p);
    WalkOfBoth(BeforeService(c), [ServiceRow(port)] + AfterService(c), hook, false, p);
    Passage.HooksDiffer();
    if hook == "input" && Walk(BeforeService(c), hook, false, p).Still? {
      assert Walk([ServiceRow(port)] + AfterService(c), hook, false, p) == Still(false);
    }
  }

  lemma ListenerVerdict(c: Comments, port: int, hook: string, p: Packet)
    requires AllCommentary(c)
    ensures VerdictOf(Rendered(ListenerRows(c, port)), hook, p) == Passage.Carried(Passage.Listener, port, hook, p)
  {
    ListenerRowsAreLaid(c, port);
    VerdictOfRows(ListenerRows(c, port), hook, p);
    ListenerWalks(c, port, hook, p);
  }

  lemma ListenerRowsAreLaid(c: Comments, port: int)
    requires AllCommentary(c)
    ensures AllLaid(ListenerRows(c, port))
  {
    BeforeServiceIsSilent(c);
    AfterServiceIsSilent(c);
    ServiceRowIsTight(port);
  }

  // ---- The table of the initiator

  lemma LastChainsWalk(c: Comments, hook: string, p: Packet)
    requires AllCommentary(c)
    ensures Walk(LastChains(c), hook, false, p) ==
              if hook == "output" && p.leaves == Passage.INTERFACE then Decided(if p.established then Accept else Drop)
              else Walk(Relay(c), hook, false, p)
  {
    var here := "output" == hook;
    var answers := [Row(2, OUTPUT + " ct state established accept"), Row(2, OUTPUT + " drop")];
    BracesWalk(hook, here, p);
    Past(NEXT_CHAIN, Relay(c), hook, here, false, p);
    AnswerRows(hook, here, p);
    WalkOfBoth(answers, NEXT_CHAIN + Relay(c), hook, here, p);
    CommentsArePassed(c.outgoing, hook, here, p);
    Past(c.outgoing, answers + (NEXT_CHAIN + Relay(c)), hook, here, here, p);
    FilterChainWalks("output", hook, false, p);
    Past(FilterChain("output"), c.outgoing + (answers + (NEXT_CHAIN + Relay(c))), hook, false, here, p);
  }

  /** From the chain that admits the listener onwards. */
  function Admitting(c: Comments, port: int): seq<Row> {
    FilterChain("input") + (c.incoming + ([AdmissionRow(port), Row(2, INPUT + " drop")] + (NEXT_CHAIN + LastChains(c))))
  }

  lemma AdmittingWalks(c: Comments, port: int, hook: string, p: Packet)
    requires AllCommentary(c)
    ensures Walk(Admitting(c, port), hook, false, p) ==
              if hook == "input" && p.arrives == Passage.INTERFACE then Decided(if Passage.FromTheListener(port, p) then Accept else Drop)
              else Walk(LastChains(c), hook, false, p)
  {
    var here := "input" == hook;
    var rules := [AdmissionRow(port), Row(2, INPUT + " drop")];
    AdmissionRowWalks(port, hook, here, p);
    DropRows(hook, here, p);
    PairOfRows(AdmissionRow(port), Row(2, INPUT + " drop"), hook, here, p);
    BracesWalk(hook, here, p);
    Past(NEXT_CHAIN, LastChains(c), hook, here, false, p);
    WalkOfBoth(rules, NEXT_CHAIN + LastChains(c), hook, here, p);
    CommentsArePassed(c.incoming, hook, here, p);
    Past(c.incoming, rules + (NEXT_CHAIN + LastChains(c)), hook, here, here, p);
    FilterChainWalks("input", hook, false, p);
    Past(FilterChain("input"), c.incoming + (rules + (NEXT_CHAIN + LastChains(c))), hook, false, here, p);
  }

  lemma InitiatorWalks(c: Comments, port: int, hook: string, p: Packet)
    requires AllCommentary(c)
    ensures Walk(InitiatorRows(c, port), hook, false, p) ==
              if hook == "prerouting" && p.arrives == Passage.INTERFACE && Passage.FromTheListener(port, p)
              then Decided(Redirect("127.0.0.1:" + Decimal(port)))
              else Walk(Admitting(c, port), hook, false, p)
  {
    var here := "prerouting" == hook;
    var natting, redirection, rest := Chain("nat", "prerouting", DESTINATION), [RedirectionRow(port)], NEXT_CHAIN + Admitting(c, port);
    BracesWalk(hook, here, p);
    Past(NEXT_CHAIN, Admitting(c, port), hook, here, false, p);
    RedirectionRowWalks(port, hook, here, p);
    WalkOfBoth(redirection, rest, hook, here, p);
    CommentsArePassed(c.endpoint, hook, here, p);
    Past(c.endpoint, redirection + rest, hook, here, here, p);
    NatChainWalks(hook, false, p);
    Past(natting, c.endpoint + (redirection + rest), hook, false, here, p);
    OpeningWalks(hook, p);
    Past(OPENING, natting + (c.endpoint + (redirection + rest)), hook, false, false, p);
    CommentsArePassed(c.head, hook, false, p);
    Past(c.head, OPENING + (natting + (c.endpoint + (redirection + rest))), hook, false, false, p);
  }

  lemma InitiatorVerdict(c: Comments, port: int, hook: string, p: Packet)
    requires AllCommentary(c)
    ensures VerdictOf(Rendered(InitiatorRows(c, port)), hook, p) == Passage.Carried(Passage.Initiator, port, hook, p)
  {
    InitiatorIsSilent(c, port);
    VerdictOfRows(InitiatorRows(c, port), hook, p);
    InitiatorWalks(c, port, hook, p);
    AdmittingWalks(c, port, hook, p);
    LastChainsWalk(c, hook, p);
    RelayWalks(c, hook, false, p);
    Passage.HooksDiffer();
  }
}
