/** What the confinement table does to a packet, read from its text. */
module EgressVerdicts {
  import opened Wrappers
  import opened Lines
  import opened Tables
  import opened EgressRules
  import Machine

  const LOOPBACK_INTERFACE := "\"lo\""

  /** New traffic of a confined account that leaves this machine is refused, and nothing else is. */
  function Refused(identifiers: set<int>, hook: string, p: Packet): bool {
    hook == "output" && p.user in identifiers && p.leaves != LOOPBACK_INTERFACE && !p.established
  }

  // ---- The three rules of one account

  lemma ScopeInWords(identifier: int, tail: string, w: seq<string>)
    requires Split(tail, ' ') == w
    ensures Split(SCOPE + (Decimal(identifier) + (" " + tail)), ' ') == ["meta", "skuid", Decimal(identifier)] + w
    ensures (SCOPE + (Decimal(identifier) + (" " + tail)))[0] == 'm'
  {
    NumberIsOneWord(identifier);
    FirstWord(Decimal(identifier), tail);
    var rest := Decimal(identifier) + (" " + tail);
    ScopeText(rest);
    FirstWord("meta", "skuid" + (" " + rest));
    FirstWord("skuid", rest);
  }

  lemma ScopeText(rest: string)
    ensures SCOPE + rest == "meta" + (" " + ("skuid" + (" " + rest))) && SCOPE[0] == 'm' && ' ' !in "meta" && ' ' !in "skuid"
  {
    assert SCOPE == "meta" + (" " + ("skuid" + " "));
    Regrouped("skuid", " ", rest);
    Regrouped(" ", "skuid" + " ", rest);
    Regrouped("meta", " " + ("skuid" + " "), rest);
  }

  lemma ScopedRowWalks(identifier: int, rule: string, tail: string, w: seq<string>, hook: string, inside: bool, p: Packet)
    requires rule == " " + tail && Split(tail, ' ') == w && w != []
    ensures Walk([EgressRules.RuleRow(identifier, rule)], hook, inside, p) ==
              if inside && p.user == identifier && Judged(w, p).Some? then Decided(Judged(w, p).value) else Still(inside)
  {
    NumberIsOneWord(identifier);
    ScopeInWords(identifier, tail, w);
    Emitting(Decimal(identifier), w, p);
    Tables.RuleRow(EgressRules.RuleRow(identifier, rule), ["meta", "skuid", Decimal(identifier)] + w, hook, inside, p);
  }

  lemma LoopbackInWords()
    ensures LOOPBACK == " " + ("oifname" + (" " + (LOOPBACK_INTERFACE + (" " + "accept"))))
    ensures Split("oifname" + (" " + (LOOPBACK_INTERFACE + (" " + "accept"))), ' ') == ["oifname", LOOPBACK_INTERFACE] + ["accept"]
  {
    LoopbackText();
    FirstWord("oifname", LOOPBACK_INTERFACE + (" " + "accept"));
    TwoWords(LOOPBACK_INTERFACE, "accept");
  }

  lemma LoopbackText()
    ensures LOOPBACK == " " + ("oifname" + (" " + (LOOPBACK_INTERFACE + (" " + "accept"))))
  {
  }

  lemma LoopbackRowWalks(identifier: int, hook: string, inside: bool, p: Packet)
    ensures Walk([EgressRules.RuleRow(identifier, LOOPBACK)], hook, inside, p) ==
              if inside && p.user == identifier && p.leaves == LOOPBACK_INTERFACE then Decided(Accept) else Still(inside)
  {
    LoopbackInWords();
    Ending(p);
    Leaving(LOOPBACK_INTERFACE, ["accept"], p);
    ScopedRowWalks(identifier, LOOPBACK, "oifname" + (" " + (LOOPBACK_INTERFACE + (" " + "accept"))), ["oifname", LOOPBACK_INTERFACE] + ["accept"], hook, inside, p);
  }

  lemma RepliesRowWalks(identifier: int, hook: string, inside: bool, p: Packet)
    ensures Walk([EgressRules.RuleRow(identifier, REPLIES)], hook, inside, p) ==
              if inside && p.user == identifier && p.established then Decided(Accept) else Still(inside)
  {
    RepliesInWords();
    Ending(p);
    Replying(["accept"], p);
    ScopedRowWalks(identifier, REPLIES, "ct state established accept", ["ct", "state", "established"] + ["accept"], hook, inside, p);
  }

  lemma DropRowWalks(identifier: int, hook: string, inside: bool, p: Packet)
    ensures Walk([EgressRules.RuleRow(identifier, DROP)], hook, inside, p) ==
              if inside && p.user == identifier then Decided(Drop) else Still(inside)
  {
    assert DROP == " " + "drop";
    OneWord("drop");
    Ending(p);
    ScopedRowWalks(identifier, DROP, "drop", ["drop"], hook, inside, p);
  }

  lemma ReasonedWalks(reason: seq<Row>, identifier: int, rule: string, hook: string, inside: bool, p: Packet)
    requires CommentRows(reason)
    ensures Walk(Reasoned(reason, identifier, rule), hook, inside, p) == Walk([EgressRules.RuleRow(identifier, rule)], hook, inside, p)
  {
    var rule := [EgressRules.RuleRow(identifier, rule)];
    CommentsArePassed(reason, hook, inside, p);
    Past(reason, rule, hook, inside, inside, p);
    EmptyRow(hook, inside, p);
    Past([Row(0, "")], reason + rule, hook, inside, inside, p);
  }

  lemma BlockWalks(c: Comments, e: Machine.Confined, hook: string, inside: bool, p: Packet)
    requires AllCommentary(c)
    ensures Walk(Block(c, e), hook, inside, p) ==
              if inside && p.user == e.identifier then Decided(if p.leaves == LOOPBACK_INTERFACE || p.established then Accept else Drop) else Still(inside)
  {
    var id := e.identifier;
    LoopbackRowWalks(id, hook, inside, p);
    RepliesRowWalks(id, hook, inside, p);
    DropRowWalks(id, hook, inside, p);
    ReasonedWalks(c.loopback, id, LOOPBACK, hook, inside, p);
    ReasonedWalks(c.replies, id, REPLIES, hook, inside, p);
    ReasonedWalks(c.rest, id, DROP, hook, inside, p);
    WalkOfBoth(Reasoned(c.replies, id, REPLIES), Reasoned(c.rest, id, DROP), hook, inside, p);
    WalkOfBoth(Reasoned(c.loopback, id, LOOPBACK), Reasoned(c.replies, id, REPLIES) + Reasoned(c.rest, id, DROP), hook, inside, p);
  }

  lemma {:induction false} BlocksWalk(c: Comments, confined: seq<Machine.Confined>, hook: string, inside: bool, p: Packet)
    requires AllCommentary(c)
    ensures Walk(Blocks(c, confined), hook, inside, p) ==
              if inside && p.user in Machine.Identifiers(confined) then Decided(if p.leaves == LOOPBACK_INTERFACE || p.established then Accept else Drop)
              else Still(inside)
    decreases |confined|
  {
    if confined != [] {
      var front, last := confined[..|confined| - 1], confined[|confined| - 1];
      BlocksWalk(c, front, hook, inside, p);
      BlockWalks(c, last, hook, inside, p);
      WalkOfBoth(Blocks(c, front), Block(c, last), hook, inside, p);
      IdentifiersOneByOne(confined);
    }
  }

  // ---- The whole of the table

  lemma PreambleWalks(c: Comments, confined: seq<Machine.Confined>, hook: string, p: Packet)
    requires AllCommentary(c)
    ensures Walk(PreambleRows(c, confined), hook, false, p) == Still(false)
  {
    forall r | r in PreambleRows(c, confined) ensures r.content == "" || r.content[0] == '#' {
      assert r in NameRows(confined) ==> exists i :: 0 <= i < |confined| && r == NameRow(confined[i]);
    }
    CommentsArePassed(PreambleRows(c, confined), hook, false, p);
  }

  lemma TableTexts()
    ensures "add " + TABLE == "add" + (" " + TABLE) && "delete " + TABLE == "delete" + (" " + TABLE)
    ensures TABLE + " {" == "table" + (" " + "inet your-cloud-egress {")
  {
    VerbTexts();
    Regrouped("add", " ", TABLE);
    Regrouped("delete", " ", TABLE);
    TableText();
    Regrouped("table", " " + "inet your-cloud-egress", " {");
    Regrouped(" ", "inet your-cloud-egress", " {");
    BraceText();
  }

  lemma TableText()
    ensures TABLE == "table" + (" " + "inet your-cloud-egress")
  {
  }

  lemma BraceText()
    ensures "inet your-cloud-egress" + " {" == "inet your-cloud-egress {"
  {
  }

  lemma OpeningWalks(hook: string, p: Packet)
    ensures Walk(OPENING, hook, false, p) == Still(false)
  {
    TableTexts();
    FrameRow(OPENING[0], "add", TABLE, hook, false, p);
    FrameRow(OPENING[1], "delete", TABLE, hook, false, p);
    FrameRow(OPENING[2], "table", "inet your-cloud-egress {", hook, false, p);
    ThreeRows(OPENING[0], OPENING[1], OPENING[2], hook, false, false, p);
  }

  lemma ChainTexts()
    ensures "chain output {" == "chain" + (" " + "output {")
    ensures "type filter hook output" + " priority filter; policy accept;" ==
              "type " + ("filter" + (" hook " + ("output" + (" " + "priority filter; policy accept;"))))
  {
    TypeText();
    Regrouped("type ", "filter" + (" hook " + "output"), " priority filter; policy accept;");
    Regrouped("filter", " hook " + "output", " priority filter; policy accept;");
    Regrouped(" hook ", "output", " priority filter; policy accept;");
    SpacedPriority();
  }

  lemma TypeText()
    ensures "type filter hook output" == "type " + ("filter" + (" hook " + "output"))
  {
  }

  lemma SpacedPriority()
    ensures " priority filter; policy accept;" == " " + "priority filter; policy accept;"
  {
  }

  lemma ChainWalks(hook: string, p: Packet)
    ensures Walk(CHAIN, hook, false, p) == Still("output" == hook)
  {
    ChainTexts();
    KindsAreWords();
    FilterLets("output");
    FrameRow(CHAIN[0], "chain", "output {", hook, false, p);
    KindText("filter", "output", "priority filter; policy accept;");
    TypeRow(CHAIN[1], "filter", "output", "priority filter; policy accept;", hook, false, p);
    PairOfRows(CHAIN[0], CHAIN[1], hook, false, p);
  }

  lemma ClosingWalks(hook: string, inside: bool, p: Packet)
    ensures Walk(CLOSING, hook, inside, p) == Still(false)
  {
    ClosingRow(1, hook, inside, p);
    ClosingRow(0, hook, false, p);
    PairOfRows(Row(1, "}"), Row(0, "}"), hook, inside, p);
  }

  lemma RuleRowsWalk(c: Comments, confined: seq<Machine.Confined>, hook: string, p: Packet)
    requires AllCommentary(c)
    ensures var w := Walk(RuleRows(c, confined), hook, false, p);
            (if w.Decided? then w.verdict else Accept) == if Refused(Machine.Identifiers(confined), hook, p) then Drop else Accept
  {
    var here, rules := "output" == hook, Blocks(c, confined);
    ClosingWalks(hook, here, p);
    BlocksWalk(c, confined, hook, here, p);
    WalkOfBoth(rules, CLOSING, hook, here, p);
    ChainWalks(hook, p);
    Past(CHAIN, rules + CLOSING, hook, false, here, p);
    OpeningWalks(hook, p);
    Past(OPENING, CHAIN + (rules + CLOSING), hook, false, false, p);
    PreambleWalks(c, confined, hook, p);
    Past(PreambleRows(c, confined), OPENING + (CHAIN + (rules + CLOSING)), hook, false, false, p);
  }

  /** Loaded, the table of some accounts refuses exactly their new outward traffic. */
  lemma EgressVerdict(c: Comments, confined: seq<Machine.Confined>, hook: string, p: Packet)
    requires AllCommentary(c) && forall i :: 0 <= i < |confined| ==> Nameable(confined[i].account)
    ensures VerdictOf(RenderEgressRules(c, confined), hook, p) == if Refused(Machine.Identifiers(confined), hook, p) then Drop else Accept
  {
    RuleRowsAreLaid(c, confined);
    VerdictOfRows(RuleRows(c, confined), hook, p);
    RuleRowsWalk(c, confined, hook, p);
  }

  /** What is read off a table as the accounts it refuses is what it refuses. */
  lemma ConfinesWhatItRefuses(c: Comments, confined: seq<Machine.Confined>, p: Packet)
    requires AllCommentary(c) && forall i :: 0 <= i < |confined| ==> Nameable(confined[i].account)
    requires p.leaves != LOOPBACK_INTERFACE && !p.established
    ensures p.user in Confines(RenderEgressRules(c, confined)) <==> VerdictOf(RenderEgressRules(c, confined), "output", p) == Drop
  {
    EgressVerdict(c, confined, "output", p);
    RulesConfineExactly(c, confined);
  }
}
