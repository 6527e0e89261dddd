/** The two files of the passage as they are written, and the readings the flows rest on. */
module LinkTexts {
  import opened Wrappers
  import opened Lines
  import opened Units
  import Passage
  import LinkRules
  import LinkVerdicts
  import Tables

  const PEER := "[WireGuardPeer]"
  const ROUTE := "[Route]"

  function RoleName(r: Passage.Role): string { if r.Listener? then "listener" else "initiator" }

  /** The address a machine holds is its role, and the other one is its peer's. */
  function AddressOf(r: Passage.Role): string { if r.Listener? then "10.66.66.1" else "10.66.66.2" }

  function PeerOf(r: Passage.Role): Passage.Role { if r.Listener? then Passage.Initiator else Passage.Listener }

  function AddressLine(r: Passage.Role): string { "Address=" + (AddressOf(r) + "/32") }

  const NAME := "Name=yc-link0"
  const KEY := "PrivateKeyFile=" + "/etc/your-cloud/link/private.key"

  function DescriptionLine(r: Passage.Role): string { "Description=" + ("Your Cloud private passage" + (" (" + (RoleName(r) + ")"))) }

  /** The port line exists on the side that answers and on no other. */
  function ListenLines(r: Passage.Role): seq<string> { if r.Listener? then ["ListenPort=51820"] else [] }

  function NetdevLines(prose: seq<string>, r: Passage.Role): seq<string> {
    prose + (["[NetDev]"] + ([NAME] + (["Kind=wireguard"] + ([DescriptionLine(r)] + ([""] + (["[WireGuard]"] + ([KEY] + ListenLines(r))))))))
  }

  function BeforeAddress(prose: seq<string>): seq<string> { prose + (["[Match]"] + ([NAME] + ([""] + ["[Network]"]))) }

  function NetworkLines(prose: seq<string>, r: Passage.Role): seq<string> { BeforeAddress(prose) + [AddressLine(r)] }

  function DestinationLine(r: Passage.Role): string { "Destination=" + (AddressOf(PeerOf(r)) + "/32") }

  function RouteLines(r: Passage.Role): seq<string> { [""] + ([ROUTE] + ([DestinationLine(r)] + ["Scope=link"])) }

  /** renderLinkPeerSection: one peer, its single address, and an endpoint on the side that goes out. */
  function PeerSection(j: Passage.Junction): string {
    Unlines(["", PEER] + PeerLines(j))
  }

  function PeerLines(j: Passage.Junction): seq<string> { ["PublicKey=" + j.peerKey] + LinesBelowTheKey(j) }

  function LinesBelowTheKey(j: Passage.Junction): seq<string> {
    ["AllowedIPs=" + (AddressOf(PeerOf(j.role)) + "/32")]
      + (if j.role.Initiator? then ["Endpoint=" + (j.peerHost + ":51820")] + ["PersistentKeepalive=25"] else [])
  }

  function NetdevHead(prose: seq<string>, r: Passage.Role): string { Unlines(NetdevLines(prose, r)) }

  function NetworkHead(prose: seq<string>, r: Passage.Role): string { Unlines(NetworkLines(prose, r)) }

  function RouteSection(r: Passage.Role): string { Unlines(RouteLines(r)) }

  /** roleNamedBy: the listener's address is looked for first. */
  function RoleNamedBy(content: string): Option<Passage.Role> {
    if Contains(content, Marker(AddressLine(Passage.Listener))) then Some(Passage.Listener)
    else if Contains(content, Marker(AddressLine(Passage.Initiator))) then Some(Passage.Initiator)
    else None
  }

  function Rules(comments: LinkRules.Comments, r: Passage.Role, port: int): string {
    if r.Listener? then Rendered(LinkRules.ListenerRows(comments, port))
    else Rendered(LinkRules.InitiatorRows(comments, port))
  }

  const RULES_PATH := "/etc/your-cloud/link/rules.nft"
  const POLICY_PATH := "/etc/sysctl.d/your-cloud-link.conf"

  /** The unit that poses the bounds again at boot: the relaxation first, where there is one. */
  function UnitLines(r: Passage.Role): seq<string> {
    ["[Unit]", Assigned("Description", "Your Cloud private passage bounds"), Assigned("After", "systemd-networkd.service"),
     Assigned("Wants", "systemd-networkd.service"), Assigned("ConditionPathExists", RULES_PATH), ""]
    + ["[Service]", Assigned("Type", "oneshot"), Assigned("RemainAfterExit", "yes")]
    + (if r.Initiator? then [Assigned("ExecStart", "/usr/sbin/sysctl --quiet --load " + POLICY_PATH)] else [])
    + [Assigned("ExecStart", "/usr/sbin/nft --file " + RULES_PATH), ""]
    + ["[Install]", Assigned("WantedBy", "multi-user.target")]
  }

  const RELAXATION := Assigned("ExecStart", "/usr/sbin/sysctl --quiet --load " + POLICY_PATH)

  /** The relaxation is loaded at boot by the side a junction ever relaxes, and by no other. */
  lemma OnlyTheInitiatorRelaxes(r: Passage.Role)
    ensures RELAXATION in UnitLines(r) <==> r.Initiator?
  {
    var table := Assigned("ExecStart", "/usr/sbin/nft --file " + RULES_PATH);
    assert RELAXATION[20] == 's' && table[20] == 'n' && RELAXATION[0] == 'E' && RELAXATION[1] == 'x';
    if r.Listener? {
      forall l | l in UnitLines(r) ensures l != RELAXATION {
        assert l == table || l == "" || l[0] != 'E';
      }
    }
  }

  function UnitText(prose: seq<string>, r: Passage.Role): string { Unlines(prose + UnitLines(r)) }

  function PolicyText(prose: seq<string>): string { Unlines(prose + [Assigned("net.ipv4.conf.yc-link0.route_localnet", "1")]) }

  /** Everything the flows of the passage use, as this product writes and reads it. */
  function Real(prose: seq<string>, comments: LinkRules.Comments): Passage.Texts {
    Passage.Texts(
      r => NetdevHead(prose, r),
      r => NetworkHead(prose, r),
      PeerSection,
      RouteSection,
      content => From(content, Marker(PEER)),
      content => From(content, Marker(ROUTE)),
      RoleNamedBy,
      (peer, key) => Contains(peer, Marker("PublicKey=" + key)),
      OneLine,
      (r, port) => Rules(comments, r, port),
      Tables.VerdictOf,
      r => UnitText(prose, r),
      PolicyText(prose))
  }

  // ---- The first marker met is the boundary between what a preparation owns and what a junction owns

  lemma MarkersAreOneLine()
    ensures OneLine(PEER) && PEER[0] == '[' && PEER[1] == 'W' && |PEER| == 15
    ensures OneLine(ROUTE) && ROUTE[0] == '[' && ROUTE[1] == 'R'
  {
  }

  lemma AddressesAreOneLine(r: Passage.Role)
    ensures OneLine(AddressOf(r) + "/32") && OneLine(AddressLine(r)) && AddressLine(r)[0] == 'A'
    ensures OneLine(DestinationLine(r)) && DestinationLine(r)[0] == 'D'
  {
  }

  lemma DescriptionIsOneLine(r: Passage.Role)
    ensures OneLine(DescriptionLine(r)) && DescriptionLine(r) != "" && DescriptionLine(r)[0] == 'D'
  {
    assert OneLine("Your Cloud private passage");
  }

  lemma KeyIsOneLine()
    ensures OneLine(KEY) && KEY != "" && KEY[0] == 'P'
    ensures OneLine(NAME) && NAME != "" && NAME[0] == 'N'
  {
    assert OneLine("/etc/your-cloud/link/private.key");
  }

  lemma SectionsApart()
    ensures Apart(["[NetDev]"], PEER) && Apart(["[WireGuard]"], PEER) && Apart([""], PEER)
    ensures Apart(["[Match]"], ROUTE) && Apart(["[Network]"], ROUTE) && Apart([""], ROUTE)
  {
    MarkersAreOneLine();
    assert "[NetDev]"[1] == 'N' && |"[WireGuard]"| == 11 && "[Match]"[1] == 'M' && "[Network]"[1] == 'N';
  }

  lemma ListenLinesApart(r: Passage.Role)
    ensures Apart(ListenLines(r), PEER)
  {
    if r.Listener? {
      OpensApart("ListenPort=51820", PEER);
    }
  }

  lemma NetdevLinesHoldNoPeer(prose: seq<string>, r: Passage.Role)
    requires Commentary(prose)
    ensures Apart(NetdevLines(prose, r), PEER)
  {
    MarkersAreOneLine();
    SectionsApart();
    KeyIsOneLine();
    DescriptionIsOneLine(r);
    ListenLinesApart(r);
    CommentaryIsApart(prose, PEER);
    OpensApart(KEY, PEER);
    OpensApart(NAME, PEER);
    OpensApart(DescriptionLine(r), PEER);
    OpensApart("Kind=wireguard", PEER);
    BothApart([KEY], ListenLines(r), PEER);
    var a := [KEY] + ListenLines(r);
    BothApart(["[WireGuard]"], a, PEER);
    var b := [""] + (["[WireGuard]"] + a);
    BothApart([""], ["[WireGuard]"] + a, PEER);
    BothApart([DescriptionLine(r)], b, PEER);
    var c := ["Kind=wireguard"] + ([DescriptionLine(r)] + b);
    BothApart(["Kind=wireguard"], [DescriptionLine(r)] + b, PEER);
    BothApart([NAME], c, PEER);
    BothApart(["[NetDev]"], [NAME] + c, PEER);
    BothApart(prose, ["[NetDev]"] + ([NAME] + c), PEER);
  }

  lemma NetworkLinesHoldNoRoute(prose: seq<string>, r: Passage.Role)
    requires Commentary(prose)
    ensures Apart(NetworkLines(prose, r), ROUTE) && Apart(BeforeAddress(prose), ROUTE)
  {
    MarkersAreOneLine();
    SectionsApart();
    KeyIsOneLine();
    AddressesAreOneLine(r);
    CommentaryIsApart(prose, ROUTE);
    OpensApart(NAME, ROUTE);
    OpensApart(AddressLine(r), ROUTE);
    BothApart([""], ["[Network]"], ROUTE);
    var a := [NAME] + ([""] + ["[Network]"]);
    BothApart([NAME], [""] + ["[Network]"], ROUTE);
    BothApart(["[Match]"], a, ROUTE);
    BothApart(prose, ["[Match]"] + a, ROUTE);
    BothApart(BeforeAddress(prose), [AddressLine(r)], ROUTE);
  }

  /** What stands below a head is read back whole, and nothing of the head with it. */
  lemma TailBelowHead(lines: seq<string>, inner: string, tail: string)
    requires lines != [] && Apart(lines, inner) && OneLine(inner)
    requires tail == "" || Marker(inner) <= tail
    requires inner != "" && inner[0] != '\n'
    ensures From(Unlines(lines) + tail, Marker(inner)) == tail
  {
    assert forall l :: l in lines[1..] ==> l in lines;
    assert Marker(inner)[0] == '\n';
    assert tail != "" ==> tail[0] == '\n' && (inner + "\n")[0] == inner[0];
    PastLines(lines, inner, tail);
  }

  lemma {:induction false} TailsOpenOnTheirMarker(content: string, marker: string)
    ensures From(content, marker) == "" || marker <= From(content, marker)
  {
    if !(marker <= content) && content != "" {
      TailsOpenOnTheirMarker(content[1..], marker);
    }
  }

  lemma PeerBelowHead(prose: seq<string>, r: Passage.Role, tail: string)
    requires Commentary(prose) && (tail == "" || Marker(PEER) <= tail)
    ensures From(NetdevHead(prose, r) + tail, Marker(PEER)) == tail
  {
    MarkersAreOneLine();
    NetdevLinesHoldNoPeer(prose, r);
    TailBelowHead(NetdevLines(prose, r), PEER, tail);
  }

  lemma RouteBelowHead(prose: seq<string>, r: Passage.Role, tail: string)
    requires Commentary(prose) && (tail == "" || Marker(ROUTE) <= tail)
    ensures From(NetworkHead(prose, r) + tail, Marker(ROUTE)) == tail
  {
    MarkersAreOneLine();
    NetworkLinesHoldNoRoute(prose, r);
    TailBelowHead(NetworkLines(prose, r), ROUTE, tail);
  }

  lemma PeerSectionOpens(j: Passage.Junction)
    ensures Marker(PEER) <= PeerSection(j) && PeerSection(j) != ""
    ensures Contains(PeerSection(j), Marker("PublicKey=" + j.peerKey))
  {
    MarkersAreOneLine();
    var own, below := "PublicKey=" + j.peerKey, LinesBelowTheKey(j);
    PeerMarker();
    UnlinesOfBoth(["", PEER], PeerLines(j));
    UnlinesOfBoth([own], below);
    OneLineText(own);
    FoundAfter(["", PEER], own, Unlines(below));
  }

  lemma PeerMarker()
    ensures Unlines(["", PEER]) == Marker(PEER)
  {
    assert ["", PEER][1..] == [PEER];
    OneLineText(PEER);
  }

  lemma EndpointIsApart(host: string, key: string)
    requires OneLine(host)
    ensures Apart(["Endpoint=" + (host + ":51820")], "PublicKey=" + key)
  {
    assert OneLine(":51820") && OneLine(host + ":51820") && OneLine("Endpoint=");
    OpensApart("Endpoint=" + (host + ":51820"), "PublicKey=" + key);
  }

  lemma KeepaliveIsApart(key: string)
    ensures Apart(["PersistentKeepalive=25"], "PublicKey=" + key)
  {
    assert "PersistentKeepalive=25"[1] == 'e' && ("PublicKey=" + key)[1] == 'u';
  }

  lemma AllowedIsApart(r: Passage.Role, key: string)
    ensures Apart(["AllowedIPs=" + (AddressOf(r) + "/32")], "PublicKey=" + key)
  {
    AddressesAreOneLine(r);
    OpensApart("AllowedIPs=" + (AddressOf(r) + "/32"), "PublicKey=" + key);
  }

  lemma NoKeyBelowTheKey(j: Passage.Junction, key: string)
    requires OneLine(j.peerHost)
    ensures Apart(LinesBelowTheKey(j), "PublicKey=" + key)
  {
    AllowedIsApart(PeerOf(j.role), key);
    EndpointIsApart(j.peerHost, key);
    KeepaliveIsApart(key);
  }

  /** A peer section names its own key, and no other. */
  lemma OnlyItsOwnKey(j: Passage.Junction, key: string)
    requires OneLine(j.peerKey) && OneLine(j.peerHost) && OneLine(key)
    ensures Contains(PeerSection(j), Marker("PublicKey=" + key)) <==> key == j.peerKey
  {
    if key == j.peerKey {
      PeerSectionOpens(j);
    } else {
      var own, other := "PublicKey=" + j.peerKey, "PublicKey=" + key;
      assert own[10..] == j.peerKey && other[10..] == key;
      MarkersAreOneLine();
      NoKeyBelowTheKey(j, key);
      OpensApart(PEER, other);
      BothApart([own], LinesBelowTheKey(j), other);
      BothApart(["", PEER], PeerLines(j), other);
      NotAmongLines(["", PEER] + PeerLines(j), other);
    }
  }

  lemma RouteSectionOpens(r: Passage.Role)
    ensures Marker(ROUTE) <= RouteSection(r) && RouteSection(r) != ""
  {
    var below := [DestinationLine(r)] + ["Scope=link"];
    UnlinesOfBoth([""], [ROUTE] + below);
    UnlinesOfBoth([ROUTE], below);
    OneLineText("");
    OneLineText(ROUTE);
    Regrouped("\n", ROUTE + "\n", Unlines(below));
    Regrouped("\n", ROUTE, "\n");
    assert Marker(ROUTE) <= Marker(ROUTE) + Unlines(below);
  }

  lemma OneLineText(line: string)
    ensures Unlines([line]) == line + "\n"
  {
  }

  // ---- The role is read back from the address, with or without a route below it

  lemma TheTwoAddressesDiffer()
    ensures AddressLine(Passage.Listener) != AddressLine(Passage.Initiator)
  {
    assert AddressLine(Passage.Listener)[17] == '1' && AddressLine(Passage.Initiator)[17] == '2';
  }

  lemma OwnAddressIsFound(prose: seq<string>, r: Passage.Role, tail: string)
    requires Commentary(prose)
    ensures Contains(NetworkHead(prose, r) + tail, Marker(AddressLine(r)))
  {
    NetworkLinesHoldNoRoute(prose, r);
    var before := BeforeAddress(prose);
    FoundAfter(before, AddressLine(r), tail);
    UnlinesOfBoth(before, [AddressLine(r)]);
    OneLineText(AddressLine(r));
    Regrouped(Unlines(before), AddressLine(r) + "\n", tail);
  }

  lemma NothingBeforeIsAnAddress(prose: seq<string>, other: string)
    requires Commentary(prose) && other != "" && other[0] == 'A'
    ensures Apart(BeforeAddress(prose), other)
  {
    KeyIsOneLine();
    CommentaryIsApart(prose, other);
    OpensApart(NAME, other);
    OpensApart("[Match]", other);
    OpensApart("[Network]", other);
    assert Apart([""], other);
    BothApart([""], ["[Network]"], other);
    var a := [NAME] + ([""] + ["[Network]"]);
    BothApart([NAME], [""] + ["[Network]"], other);
    BothApart(["[Match]"], a, other);
    BothApart(prose, ["[Match]"] + a, other);
  }

  lemma RouteLinesHoldNoAddress(r: Passage.Role, other: string)
    requires other != "" && other[0] == 'A'
    ensures Apart(RouteLines(r), other)
  {
    MarkersAreOneLine();
    AddressesAreOneLine(r);
    OpensApart(ROUTE, other);
    OpensApart(DestinationLine(r), other);
    OpensApart("Scope=link", other);
    assert Apart([""], other);
    var below := [DestinationLine(r)] + ["Scope=link"];
    BothApart([DestinationLine(r)], ["Scope=link"], other);
    BothApart([ROUTE], below, other);
    BothApart([""], [ROUTE] + below, other);
  }

  lemma NotAmongLines(lines: seq<string>, inner: string)
    requires lines != [] && Apart(lines, inner) && OneLine(inner)
    ensures !Contains(Unlines(lines), Marker(inner))
  {
    PastLines(lines, inner, "");
    assert Unlines(lines) + "" == Unlines(lines);
  }

  lemma OtherAddressIsNotThere(prose: seq<string>, tail: seq<string>)
    requires Commentary(prose) && (tail == [] || tail == RouteLines(Passage.Initiator))
    ensures !Contains(NetworkHead(prose, Passage.Initiator) + Unlines(tail), Marker(AddressLine(Passage.Listener)))
  {
    var inner, own := AddressLine(Passage.Listener), AddressLine(Passage.Initiator);
    TheTwoAddressesDiffer();
    AddressesAreOneLine(Passage.Listener);
    AddressesAreOneLine(Passage.Initiator);
    NothingBeforeIsAnAddress(prose, inner);
    RouteLinesHoldNoAddress(Passage.Initiator, inner);
    assert Apart([own], inner) && Apart([], inner);
    BothApart(BeforeAddress(prose), [own], inner);
    BothApart(NetworkLines(prose, Passage.Initiator), tail, inner);
    NotAmongLines(NetworkLines(prose, Passage.Initiator) + tail, inner);
    UnlinesOfBoth(NetworkLines(prose, Passage.Initiator), tail);
  }

  lemma RoleReadsBack(prose: seq<string>, r: Passage.Role)
    requires Commentary(prose)
    ensures RoleNamedBy(NetworkHead(prose, r)) == Some(r)
    ensures RoleNamedBy(NetworkHead(prose, r) + RouteSection(r)) == Some(r)
  {
    OwnAddressIsFound(prose, r, "");
    OwnAddressIsFound(prose, r, RouteSection(r));
    assert NetworkHead(prose, r) + "" == NetworkHead(prose, r);
    if r.Initiator? {
      OtherAddressIsNotThere(prose, []);
      OtherAddressIsNotThere(prose, RouteLines(r));
    }
  }

  lemma TailsAreCarried(prose: seq<string>, r: Passage.Role, content: string)
    requires Commentary(prose)
    ensures From(NetdevHead(prose, r) + From(content, Marker(PEER)), Marker(PEER)) == From(content, Marker(PEER))
    ensures From(NetworkHead(prose, r) + From(content, Marker(ROUTE)), Marker(ROUTE)) == From(content, Marker(ROUTE))
    ensures From(NetdevHead(prose, r), Marker(PEER)) == "" && From(NetworkHead(prose, r), Marker(ROUTE)) == ""
  {
    TailsOpenOnTheirMarker(content, Marker(PEER));
    PeerBelowHead(prose, r, From(content, Marker(PEER)));
    TailsOpenOnTheirMarker(content, Marker(ROUTE));
    RouteBelowHead(prose, r, From(content, Marker(ROUTE)));
    PeerBelowHead(prose, r, "");
    RouteBelowHead(prose, r, "");
    assert NetdevHead(prose, r) + "" == NetdevHead(prose, r) && NetworkHead(prose, r) + "" == NetworkHead(prose, r);
  }

  lemma SectionsAreRead(prose: seq<string>, j: Passage.Junction)
    requires Commentary(prose)
    ensures From(NetdevHead(prose, j.role) + PeerSection(j), Marker(PEER)) == PeerSection(j) && PeerSection(j) != ""
    ensures Contains(PeerSection(j), Marker("PublicKey=" + j.peerKey))
    ensures From(NetworkHead(prose, j.role) + RouteSection(j.role), Marker(ROUTE)) == RouteSection(j.role) && RouteSection(j.role) != ""
  {
    PeerSectionOpens(j);
    PeerBelowHead(prose, j.role, PeerSection(j));
    RouteSectionOpens(j.role);
    RouteBelowHead(prose, j.role, RouteSection(j.role));
  }

  /** The table of a role and a port does to every packet what that role and that port allow. */
  lemma TablesCarryWhatTheyShould(comments: LinkRules.Comments, r: Passage.Role, port: int, hook: string, p: Tables.Packet)
    requires LinkRules.AllCommentary(comments)
    ensures Tables.VerdictOf(Rules(comments, r, port), hook, p) == Passage.Carried(r, port, hook, p)
  {
    if r.Listener? {
      LinkVerdicts.ListenerVerdict(comments, port, hook, p);
    } else {
      LinkVerdicts.InitiatorVerdict(comments, port, hook, p);
    }
  }

  /** What the flows of the passage ask of its files is what this product's files give. */
  lemma RealTextsAreCoherent(prose: seq<string>, comments: LinkRules.Comments)
    requires Commentary(prose) && LinkRules.AllCommentary(comments)
    ensures Passage.Coherent(Real(prose, comments))
  {
    forall r: Passage.Role, content ensures From(NetdevHead(prose, r) + From(content, Marker(PEER)), Marker(PEER)) == From(content, Marker(PEER)) {
      TailsAreCarried(prose, r, content);
    }
    forall r: Passage.Role, content ensures From(NetworkHead(prose, r) + From(content, Marker(ROUTE)), Marker(ROUTE)) == From(content, Marker(ROUTE)) {
      TailsAreCarried(prose, r, content);
    }
    forall r: Passage.Role ensures From(NetdevHead(prose, r), Marker(PEER)) == "" && From(NetworkHead(prose, r), Marker(ROUTE)) == "" {
      TailsAreCarried(prose, r, "");
    }
    forall j: Passage.Junction
      ensures From(NetdevHead(prose, j.role) + PeerSection(j), Marker(PEER)) == PeerSection(j) && PeerSection(j) != ""
      ensures Contains(PeerSection(j), Marker("PublicKey=" + j.peerKey))
    {
      SectionsAreRead(prose, j);
    }
    forall r: Passage.Role ensures From(NetworkHead(prose, r) + RouteSection(r), Marker(ROUTE)) == RouteSection(r) && RouteSection(r) != "" {
      SectionsAreRead(prose, Passage.Junction(r, "", "", 0));
    }
    forall j: Passage.Junction, key: string | OneLine(j.peerKey) && OneLine(j.peerHost) && OneLine(key)
      ensures Contains(PeerSection(j), Marker("PublicKey=" + key)) <==> key == j.peerKey
    {
      OnlyItsOwnKey(j, key);
    }
    forall r: Passage.Role, port, hook, p ensures Tables.VerdictOf(Rules(comments, r, port), hook, p) == Passage.Carried(r, port, hook, p) {
      TablesCarryWhatTheyShould(comments, r, port, hook, p);
    }
    forall r: Passage.Role ensures RoleNamedBy(NetworkHead(prose, r)) == Some(r) && RoleNamedBy(NetworkHead(prose, r) + RouteSection(r)) == Some(r) {
      RoleReadsBack(prose, r);
    }
  }
}
