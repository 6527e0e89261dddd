/** What the network manager reads of the passage: every section and setting of its files. */
module LinkReadings {
  import opened Wrappers
  import opened Lines
  import opened Units
  import opened LinkTexts
  import Passage

  /** The interface of a role, and no more of the port than the side that answers has. */
  function InterfaceEntries(r: Passage.Role): seq<Entry> {
    [Section("[NetDev]")] + ([Setting("Name", "yc-link0")] + ([Setting("Kind", "wireguard")]
      + ([Setting("Description", "Your Cloud private passage (" + (if r.Listener? then "listener)" else "initiator)"))]
      + ([Section("[WireGuard]")] + ([Setting("PrivateKeyFile", "/etc/your-cloud/link/private.key")]
      + (if r.Listener? then [Setting("ListenPort", "51820")] else []))))))
  }

  /** One peer: its key, the one address it may be, and where it answers, on the side that goes out. */
  function PeerEntries(j: Passage.Junction): seq<Entry> {
    [Section("[WireGuardPeer]")] + ([Setting("PublicKey", j.peerKey)]
      + ([Setting("AllowedIPs", (if j.role.Listener? then Passage.INITIATOR_ADDRESS else Passage.LISTENER_ADDRESS) + "/32")]
      + (if j.role.Initiator? then [Setting("Endpoint", j.peerHost + ":51820")] + [Setting("PersistentKeepalive", "25")] else [])))
  }

  lemma NetDevIsRead()
    ensures EntryOf("[NetDev]") == [Section("[NetDev]")] && EntryOf("[WireGuard]") == [Section("[WireGuard]")]
    ensures EntryOf("") == []
  {
  }

  lemma NameIsRead()
    ensures EntryOf(NAME) == [Setting("Name", "yc-link0")]
  {
    assert NAME == "Name" + ("=" + "yc-link0");
    SettingIsRead("Name", "yc-link0");
  }

  lemma KindIsRead()
    ensures EntryOf("Kind=wireguard") == [Setting("Kind", "wireguard")]
  {
    assert "Kind=wireguard" == "Kind" + ("=" + "wireguard");
    SettingIsRead("Kind", "wireguard");
  }

  lemma DescriptionText(r: Passage.Role)
    ensures "Your Cloud private passage" + (" (" + (RoleName(r) + ")")) == "Your Cloud private passage (" + (if r.Listener? then "listener)" else "initiator)")
  {
    assert "Your Cloud private passage" + " (" == "Your Cloud private passage (";
    Regrouped("Your Cloud private passage", " (", RoleName(r) + ")");
    assert RoleName(r) + ")" == if r.Listener? then "listener)" else "initiator)";
  }

  lemma DescriptionIsRead(r: Passage.Role)
    ensures EntryOf(DescriptionLine(r)) == [Setting("Description", "Your Cloud private passage (" + (if r.Listener? then "listener)" else "initiator)"))]
  {
    DescriptionText(r);
    var value := "Your Cloud private passage" + (" (" + (RoleName(r) + ")"));
    assert "Description=" == "Description" + "=";
    Regrouped("Description", "=", value);
    SettingIsRead("Description", value);
  }

  lemma KeyFileText()
    ensures KEY == "PrivateKeyFile" + ("=" + "/etc/your-cloud/link/private.key")
  {
    assert "PrivateKeyFile=" == "PrivateKeyFile" + "=";
    Regrouped("PrivateKeyFile", "=", "/etc/your-cloud/link/private.key");
  }

  lemma KeyFileIsRead()
    ensures EntryOf(KEY) == [Setting("PrivateKeyFile", "/etc/your-cloud/link/private.key")]
  {
    KeyFileText();
    SettingIsRead("PrivateKeyFile", "/etc/your-cloud/link/private.key");
  }

  lemma ListenIsRead(r: Passage.Role)
    ensures EntriesIn(ListenLines(r)) == if r.Listener? then [Setting("ListenPort", "51820")] else []
  {
    if r.Listener? {
      assert "ListenPort=51820" == "ListenPort" + ("=" + "51820");
      SettingIsRead("ListenPort", "51820");
      OneEntry("ListenPort=51820");
    }
  }

  lemma DeviceSays(r: Passage.Role)
    ensures EntriesIn([""] + (["[WireGuard]"] + ([KEY] + ListenLines(r)))) ==
              [Section("[WireGuard]")] + ([Setting("PrivateKeyFile", "/etc/your-cloud/link/private.key")]
                + (if r.Listener? then [Setting("ListenPort", "51820")] else []))
  {
    NetDevIsRead();
    KeyFileIsRead();
    ListenIsRead(r);
    LineThenMore(KEY, ListenLines(r));
    LineThenMore("[WireGuard]", [KEY] + ListenLines(r));
    BlankThenMore(["[WireGuard]"] + ([KEY] + ListenLines(r)));
  }

  /** The description of the interface says what a role is, and nothing of a peer. */
  lemma NetdevSays(prose: seq<string>, r: Passage.Role)
    requires Commentary(prose)
    ensures EntriesIn(NetdevLines(prose, r)) == InterfaceEntries(r)
  {
    var device := [""] + (["[WireGuard]"] + ([KEY] + ListenLines(r)));
    DeviceSays(r);
    InterfaceSays(r, device);
    CommentsSayNothing(prose);
    SilenceThenMore(prose, ["[NetDev]"] + ([NAME] + (["Kind=wireguard"] + ([DescriptionLine(r)] + device))));
  }

  lemma InterfaceSays(r: Passage.Role, device: seq<string>)
    ensures EntriesIn(["[NetDev]"] + ([NAME] + (["Kind=wireguard"] + ([DescriptionLine(r)] + device)))) ==
              [Section("[NetDev]")] + ([Setting("Name", "yc-link0")] + ([Setting("Kind", "wireguard")]
                + ([Setting("Description", "Your Cloud private passage (" + (if r.Listener? then "listener)" else "initiator)"))] + EntriesIn(device))))
  {
    NetDevIsRead();
    NameIsRead();
    KindIsRead();
    DescriptionIsRead(r);
    LineThenMore(DescriptionLine(r), device);
    LineThenMore("Kind=wireguard", [DescriptionLine(r)] + device);
    LineThenMore(NAME, ["Kind=wireguard"] + ([DescriptionLine(r)] + device));
    LineThenMore("[NetDev]", [NAME] + (["Kind=wireguard"] + ([DescriptionLine(r)] + device)));
  }

  lemma PeerKeyIsRead(key: string)
    ensures EntryOf("PublicKey=" + key) == [Setting("PublicKey", key)]
  {
    assert "PublicKey=" == "PublicKey" + "=";
    Regrouped("PublicKey", "=", key);
    SettingIsRead("PublicKey", key);
  }

  lemma AllowedIsRead(value: string)
    ensures EntryOf("AllowedIPs=" + value) == [Setting("AllowedIPs", value)]
  {
    assert "AllowedIPs=" == "AllowedIPs" + "=";
    Regrouped("AllowedIPs", "=", value);
    SettingIsRead("AllowedIPs", value);
  }

  lemma EndpointIsRead(value: string)
    ensures EntryOf("Endpoint=" + value) == [Setting("Endpoint", value)]
    ensures EntryOf("PersistentKeepalive=25") == [Setting("PersistentKeepalive", "25")]
  {
    assert "Endpoint=" == "Endpoint" + "=";
    Regrouped("Endpoint", "=", value);
    SettingIsRead("Endpoint", value);
    assert "PersistentKeepalive=25" == "PersistentKeepalive" + ("=" + "25");
    SettingIsRead("PersistentKeepalive", "25");
  }

  lemma AddressesAreThePeers(r: Passage.Role)
    ensures AddressOf(r) == if r.Listener? then Passage.LISTENER_ADDRESS else Passage.INITIATOR_ADDRESS
    ensures AddressOf(PeerOf(r)) == if r.Listener? then Passage.INITIATOR_ADDRESS else Passage.LISTENER_ADDRESS
  {
  }

  /** The section of a peer says exactly its key, its one address and its endpoint. */
  lemma PeerSays(j: Passage.Junction)
    ensures EntriesIn(["", PEER] + PeerLines(j)) == PeerEntries(j)
  {
    AddressesAreThePeers(j.role);
    var allowed := AddressOf(PeerOf(j.role)) + "/32";
    PeerKeyIsRead(j.peerKey);
    AllowedIsRead(allowed);
    EndpointIsRead(j.peerHost + ":51820");
    TwoEntries("Endpoint=" + (j.peerHost + ":51820"), "PersistentKeepalive=25");
    LineThenMore("AllowedIPs=" + allowed, if j.role.Initiator? then ["Endpoint=" + (j.peerHost + ":51820")] + ["PersistentKeepalive=25"] else []);
    LineThenMore("PublicKey=" + j.peerKey, LinesBelowTheKey(j));
    PeerHeaderIsRead();
    TwoEntries("", PEER);
    EntriesOfBoth(["", PEER], PeerLines(j));
  }

  lemma PeerHeaderIsRead()
    ensures EntryOf(PEER) == [Section("[WireGuardPeer]")] && EntryOf("") == []
  {
  }

  lemma AddressIsRead(r: Passage.Role)
    ensures EntryOf(AddressLine(r)) == [Setting("Address", AddressOf(r) + "/32")]
    ensures EntryOf(DestinationLine(r)) == [Setting("Destination", AddressOf(PeerOf(r)) + "/32")]
  {
    assert "Address=" == "Address" + "=" && "Destination=" == "Destination" + "=";
    Regrouped("Address", "=", AddressOf(r) + "/32");
    Regrouped("Destination", "=", AddressOf(PeerOf(r)) + "/32");
    SettingIsRead("Address", AddressOf(r) + "/32");
    SettingIsRead("Destination", AddressOf(PeerOf(r)) + "/32");
  }

  lemma HeadersAreRead()
    ensures EntryOf("[Match]") == [Section("[Match]")] && EntryOf("[Network]") == [Section("[Network]")]
    ensures EntryOf(ROUTE) == [Section("[Route]")] && EntryOf("") == []
  {
  }

  lemma ScopeIsRead()
    ensures EntryOf("Scope=link") == [Setting("Scope", "link")]
  {
    assert "Scope=link" == "Scope" + ("=" + "link");
    SettingIsRead("Scope", "link");
  }

  function AddressEntries(r: Passage.Role): seq<Entry> {
    [Section("[Match]")] + ([Setting("Name", "yc-link0")] + ([Section("[Network]")]
      + [Setting("Address", (if r.Listener? then Passage.LISTENER_ADDRESS else Passage.INITIATOR_ADDRESS) + "/32")]))
  }

  function RouteEntries(r: Passage.Role): seq<Entry> {
    [Section("[Route]")] + ([Setting("Destination", (if r.Listener? then Passage.INITIATOR_ADDRESS else Passage.LISTENER_ADDRESS) + "/32")]
      + [Setting("Scope", "link")])
  }

  lemma MatchSays()
    ensures EntriesIn(["[Match]"] + ([NAME] + ([""] + ["[Network]"]))) ==
              [Section("[Match]")] + ([Setting("Name", "yc-link0")] + [Section("[Network]")])
  {
    HeadersAreRead();
    NameIsRead();
    OneEntry("[Network]");
    BlankThenMore(["[Network]"]);
    LineThenMore(NAME, [""] + ["[Network]"]);
    LineThenMore("[Match]", [NAME] + ([""] + ["[Network]"]));
  }

  lemma NetworkSays(prose: seq<string>, r: Passage.Role)
    requires Commentary(prose)
    ensures EntriesIn(NetworkLines(prose, r)) == AddressEntries(r)
  {
    AddressesAreThePeers(r);
    AddressIsRead(r);
    MatchSays();
    CommentsSayNothing(prose);
    SilenceThenMore(prose, ["[Match]"] + ([NAME] + ([""] + ["[Network]"])));
    OneEntry(AddressLine(r));
    EntriesOfBoth(BeforeAddress(prose), [AddressLine(r)]);
    var address := [Setting("Address", AddressOf(r) + "/32")];
    Regrouped([Section("[Match]")], [Setting("Name", "yc-link0")] + [Section("[Network]")], address);
    Regrouped([Setting("Name", "yc-link0")], [Section("[Network]")], address);
  }

  lemma RouteSays(r: Passage.Role)
    ensures EntriesIn(RouteLines(r)) == RouteEntries(r)
  {
    AddressesAreThePeers(r);
    AddressIsRead(r);
    HeadersAreRead();
    ScopeIsRead();
    TwoEntries(DestinationLine(r), "Scope=link");
    assert [DestinationLine(r)] + ["Scope=link"] == [DestinationLine(r), "Scope=link"];
    LineThenMore(ROUTE, [DestinationLine(r)] + ["Scope=link"]);
    BlankThenMore([ROUTE] + ([DestinationLine(r)] + ["Scope=link"]));
  }

  // ---- The files as a whole

  lemma NetdevIsOneLine(prose: seq<string>, r: Passage.Role)
    requires Commentary(prose)
    ensures AllOneLine(NetdevLines(prose, r)) && AllOneLine(NetworkLines(prose, r)) && AllOneLine(RouteLines(r))
  {
    NetdevLinesHoldNoPeer(prose, r);
    NetworkLinesHoldNoRoute(prose, r);
    RouteLinesHoldNoAddress(r, "A");
  }

  lemma PeerIsOneLine(j: Passage.Junction)
    requires OneLine(j.peerKey) && OneLine(j.peerHost)
    ensures AllOneLine(["", PEER] + PeerLines(j))
  {
    MarkersAreOneLine();
    NoKeyBelowTheKey(j, "");
    PublicKeyIsOneLine(j.peerKey);
  }

  lemma PublicKeyIsOneLine(key: string)
    requires OneLine(key)
    ensures OneLine("PublicKey=" + key)
  {
    assert OneLine("PublicKey=");
  }

  /** Prepared, a machine describes its interface, its address and no peer. */
  lemma PreparedFilesSay(prose: seq<string>, r: Passage.Role)
    requires Commentary(prose)
    ensures EntriesOf(NetdevHead(prose, r)) == InterfaceEntries(r)
    ensures EntriesOf(NetworkHead(prose, r)) == AddressEntries(r)
  {
    NetdevIsOneLine(prose, r);
    NetdevSays(prose, r);
    NetworkSays(prose, r);
    TextOfLines(NetdevLines(prose, r));
    TextOfLines(NetworkLines(prose, r));
  }

  /** Joined, it moreover describes the one peer the junction names, and the one route to it. */
  lemma JoinedFilesSay(prose: seq<string>, j: Passage.Junction)
    requires Commentary(prose) && OneLine(j.peerKey) && OneLine(j.peerHost)
    ensures EntriesOf(NetdevHead(prose, j.role) + PeerSection(j)) == InterfaceEntries(j.role) + PeerEntries(j)
    ensures EntriesOf(NetworkHead(prose, j.role) + RouteSection(j.role)) == AddressEntries(j.role) + RouteEntries(j.role)
  {
    var peer := ["", PEER] + PeerLines(j);
    NetdevIsOneLine(prose, j.role);
    PeerIsOneLine(j);
    NetdevSays(prose, j.role);
    PeerSays(j);
    UnlinesOfBoth(NetdevLines(prose, j.role), peer);
    EntriesOfBoth(NetdevLines(prose, j.role), peer);
    TextOfLines(NetdevLines(prose, j.role) + peer);
    NetworkSays(prose, j.role);
    RouteSays(j.role);
    UnlinesOfBoth(NetworkLines(prose, j.role), RouteLines(j.role));
    EntriesOfBoth(NetworkLines(prose, j.role), RouteLines(j.role));
    TextOfLines(NetworkLines(prose, j.role) + RouteLines(j.role));
  }
}
