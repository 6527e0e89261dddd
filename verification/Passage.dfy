/**
 * One machine's side of the private passage: the two files that describe it, the interface that
 * was last configured from them, and the bounds a junction poses before its peer exists.
 */
module Passage {
  import opened Wrappers
  import opened Tables
  import Lines

  datatype Role = Listener | Initiator

  /** The two files that describe the passage. */
  datatype Files = Files(netdev: Option<string>, network: Option<string>)

  /** The bounding table on disk and in the kernel, the unit that poses it at boot, the host relaxation. */
  datatype Bounds = Bounds(
    rules: Option<string>,
    table: Option<string>,
    unit: Option<string>,
    enabled: bool,
    policy: Option<string>
  )

  datatype Link = Link(
    key: bool,
    files: Files,
    device: Option<string>,       // what the standing interface was last configured from
    managed: bool,                // the network manager runs, now and after a reboot
    bounds: Bounds
  )

  datatype Junction = Junction(role: Role, peerKey: string, peerHost: string, port: int)

  const INTERFACE := "\"yc-link0\""
  const LISTENER_ADDRESS := "10.66.66.1"
  const INITIATOR_ADDRESS := "10.66.66.2"
  const TUNNEL_PORT := 51820

  /**
   * What the passage may carry. The listener reaches out, by TCP, to the one address and the one
   * port; what comes back to it is replies, and, because the line that names the tunnel's own port
   * carries no interface, UDP sent to that port. The initiator answers: TCP from the listener on the
   * one port, sent on to its own loopback, and nothing but replies out. Neither relays anything, and
   * nothing else of the machine is touched.
   */
  function Carried(role: Role, port: int, hook: string, p: Packet): Verdict {
    if hook == "forward" then (if p.arrives == INTERFACE || p.leaves == INTERFACE then Drop else Accept)
    else if hook == "output" && p.leaves == INTERFACE then
      (if (if role.Listener? then p.protocol.Tcp? && p.destination == INITIATOR_ADDRESS && p.port == port else p.established)
       then Accept else Drop)
    else if hook == "input" && p.arrives == INTERFACE then
      (if (if role.Listener? then p.established || (p.protocol.Udp? && p.port == TUNNEL_PORT) else FromTheListener(port, p))
       then Accept else Drop)
    else if hook == "prerouting" && role.Initiator? && p.arrives == INTERFACE && FromTheListener(port, p) then
      Redirect("127.0.0.1:" + Lines.Decimal(port))
    else Accept
  }

  predicate FromTheListener(port: int, p: Packet) { p.protocol.Tcp? && p.source == LISTENER_ADDRESS && p.port == port }

  /** The renderers and readers of the passage's files. What the flows need of them is `Coherent`. */
  datatype Texts = Texts(
    netdevHead: Role -> string,
    networkHead: Role -> string,
    peer: Junction -> string,
    route: Role -> string,
    peerIn: string -> string,
    routeIn: string -> string,
    roleOf: string -> Option<Role>,
    names: (string, string) -> bool,
    spelled: string -> bool,               // what a decoded plan may give for a key or a host
    rules: (Role, int) -> string,
    verdict: (string, string, Packet) -> Verdict,
    unit: Role -> string,
    policy: string
  )

  ghost predicate Coherent(t: Texts) {
    && (forall r, content :: t.peerIn(t.netdevHead(r) + t.peerIn(content)) == t.peerIn(content))
    && (forall r, content :: t.routeIn(t.networkHead(r) + t.routeIn(content)) == t.routeIn(content))
    && (forall r :: t.peerIn(t.netdevHead(r)) == "" && t.routeIn(t.networkHead(r)) == "")
    && (forall j: Junction :: t.peerIn(t.netdevHead(j.role) + t.peer(j)) == t.peer(j) && t.peer(j) != "" && t.names(t.peer(j), j.peerKey))
    && (forall j: Junction, key: string :: t.spelled(j.peerKey) && t.spelled(j.peerHost) && t.spelled(key) ==>
          (t.names(t.peer(j), key) <==> key == j.peerKey))
    && (forall r :: t.routeIn(t.networkHead(r) + t.route(r)) == t.route(r) && t.route(r) != "")
    && (forall r, port, hook, p :: t.verdict(t.rules(r, port), hook, p) == Carried(r, port, hook, p))
    && (forall r :: t.roleOf(t.networkHead(r)) == Some(r) && t.roleOf(t.networkHead(r) + t.route(r)) == Some(r))
  }

  /** What one file holds from a marker onwards, or nothing where there is no file. */
  function PeerOf(t: Texts, file: Option<string>): string { if file.Some? then t.peerIn(file.value) else "" }

  function RouteOf(t: Texts, file: Option<string>): string { if file.Some? then t.routeIn(file.value) else "" }

  /** The bounding table of one role and one port. */
  ghost predicate IsTable(t: Texts, content: string) { exists r, port :: content == t.rules(r, port) }

  ghost predicate Bounding(t: Texts, table: Option<string>) { table.Some? && IsTable(t, table.value) }

  /** A peer in the description, or on the interface that stands, is a peer behind a loaded table. */
  ghost predicate Bounded(t: Texts, l: Link) {
    PeerOf(t, l.files.netdev) != "" || PeerOf(t, l.device) != "" ==> Bounding(t, l.bounds.table)
  }

  /** A table that judges every packet as one role and one port allow. */
  ghost predicate Carries(t: Texts, table: string, role: Role, port: int) {
    forall hook, p :: t.verdict(table, hook, p) == Carried(role, port, hook, p)
  }

  /**
   * So wherever there is a peer, what its interface carries is what one role and one port allow:
   * nothing is relayed, and what is let out is TCP to the other end's one port, or a reply.
   */
  lemma PeersAreConfined(t: Texts, l: Link)
    requires Coherent(t) && Bounded(t, l) && (PeerOf(t, l.files.netdev) != "" || PeerOf(t, l.device) != "")
    ensures l.bounds.table.Some?
    ensures exists r, port :: Carries(t, l.bounds.table.value, r, port)
    ensures forall p: Packet :: p.arrives == INTERFACE || p.leaves == INTERFACE ==> t.verdict(l.bounds.table.value, "forward", p) == Drop
    ensures forall p: Packet :: p.leaves == INTERFACE && t.verdict(l.bounds.table.value, "output", p) != Drop ==>
              p.established || (p.protocol.Tcp? && p.destination == INITIATOR_ADDRESS)
  {
    var r, port :| l.bounds.table.value == t.rules(r, port);
    assert Carries(t, l.bounds.table.value, r, port);
    HooksDiffer();
  }

  lemma HooksDiffer()
    ensures "input" != "output" && "input" != "forward" && "output" != "forward"
    ensures "prerouting" !in ["input", "output", "forward"]
  {
    assert "input"[0] == 'i' && "output"[0] == 'o' && "forward"[0] == 'f' && "prerouting"[0] == 'p';
  }

  /** The kernel holds no table a file does not account for, and no interface nobody manages. */
  predicate Accounted(l: Link) { (l.bounds.table.Some? ==> l.bounds.rules.Some?) && (l.device.Some? ==> l.managed) }

  /** The kernel holds exactly the table its file describes. */
  predicate Loaded(l: Link) { l.bounds.table == l.bounds.rules }

  datatype Trace = Start | Then(past: Trace, link: Link)

  ghost predicate AllBounded(t: Texts, trace: Trace) {
    trace.Then? ==> AllBounded(t, trace.past) && Bounded(t, trace.link) && Accounted(trace.link)
  }

  /** The instants a trace went through after another. */
  ghost function Since(start: Trace, trace: Trace): set<Link> {
    if trace == start || trace.Start? then {} else Since(start, trace.past) + {trace.link}
  }

  lemma {:induction false} SinceJoins(start: Trace, mid: Trace, end: Trace)
    ensures Since(start, end) <= Since(start, mid) + Since(mid, end)
    decreases end
  {
    if end.Then? {
      SinceJoins(start, mid, end.past);
    }
  }

  /** One instant of a posing: the relaxation before the table, the table before the unit, the unit before its enablement. */
  predicate PosedInOrder(t: Texts, l: Link, i: Link, role: Role, port: int) {
    && ((i.bounds.rules == l.bounds.rules && i.bounds.table == l.bounds.table) || (role.Initiator? ==> i.bounds.policy == Some(t.policy)))
    && (i.bounds.unit == l.bounds.unit || i.bounds.table == Some(t.rules(role, port)))
    && (i.bounds.enabled == l.bounds.enabled || i.bounds.unit == Some(t.unit(role)))
  }

  datatype Outcome = Held | Changed | Refused | Failed

  class Machine {
    const text: Texts
    const reliable: bool        // on a reliable machine every reading is made, and every effect whole
    const ports: set<int>       // the loopback ports the managed services of this machine publish
    var link: Link
    ghost var trace: Trace
    ghost var undoings: nat

    constructor (text: Texts, ports: set<int>, link: Link, reliable: bool)
      ensures this.text == text && this.reliable == reliable && this.ports == ports && this.link == link && trace == Start && undoings == 0
    {
      this.text, this.reliable := text, reliable;
      this.ports := ports;
      this.link := link;
      trace := Start;
      undoings := 0;
    }

    ghost predicate Sound()
      reads this
    {
      AllBounded(text, trace) && Bounded(text, link) && Accounted(link)
    }

    /** A reading of the machine that does not come back. */
    method MayFail() returns (failed: bool)
      ensures reliable ==> !failed
    {
      failed := *;
      failed := failed && !reliable;
    }

    method Do(after: Link) returns (ok: bool)
      modifies this`link, this`trace
      ensures link == old(link) || link == after
      ensures ok ==> link == after
      ensures trace == Then(old(trace), link)
      ensures reliable ==> ok
    {
      var happened: bool := *;
      happened := happened || reliable;
      if happened {
        link := after;
      }
      trace := Then(trace, link);
      ok := *;
      ok := (ok || reliable) && happened;
    }

    // ---- The bounds

    /** Written and then loaded: one effect, two instants. */
    method WriteRules(content: string) returns (ok: bool)
      modifies this`link, this`trace
      ensures link == old(link) || link == old(link).(bounds := old(link).bounds.(rules := Some(content)))
        || link == old(link).(bounds := old(link).bounds.(rules := Some(content), table := Some(content)))
      ensures ok ==> link == old(link).(bounds := old(link).bounds.(rules := Some(content), table := Some(content)))
      ensures old(Sound()) && IsTable(text, content) ==> Sound()
      ensures forall i :: i in Since(old(trace), trace) ==>
                i == old(link).(bounds := old(link).bounds.(rules := i.bounds.rules, table := i.bounds.table))
      ensures reliable ==> ok
    {
      ghost var start := trace;
      ok := Do(link.(bounds := link.bounds.(rules := Some(content))));
      ghost var mid := trace;
      if ok {
        ok := Do(link.(bounds := link.bounds.(table := Some(content))));
      }
      SinceJoins(start, mid, trace);
    }

    /** Deleted from the kernel by its name, and only then from the disk. */
    method RemoveRules() returns (ok: bool)
      modifies this`link, this`trace
      ensures link == old(link) || link == old(link).(bounds := old(link).bounds.(table := None))
        || link == old(link).(bounds := old(link).bounds.(rules := None, table := None))
      ensures ok ==> link == old(link).(bounds := old(link).bounds.(rules := None, table := None))
      ensures old(Sound() && Peerless(text, link)) ==> Sound()
      ensures reliable ==> ok
    {
      ok := Do(link.(bounds := link.bounds.(table := None)));
      if ok {
        ok := Do(link.(bounds := link.bounds.(rules := None)));
      }
    }

    method EnableBootUnit(role: Role) returns (ok: bool)
      modifies this`link, this`trace
      ensures link == old(link).(bounds := link.bounds)
      ensures ok ==> link == old(link).(bounds := old(link).bounds.(unit := Some(text.unit(role)), enabled := true))
      ensures old(Sound()) ==> Sound()
      ensures forall i :: i in Since(old(trace), trace) ==>
                i == old(link).(bounds := old(link).bounds.(unit := i.bounds.unit, enabled := i.bounds.enabled))
                && (i.bounds.enabled == old(link).bounds.enabled || i.bounds.unit == Some(text.unit(role)))
      ensures reliable ==> ok
    {
      ghost var start := trace;
      ok := Do(link.(bounds := link.bounds.(unit := Some(text.unit(role)))));
      ghost var mid := trace;
      if ok {
        ok := Do(link.(bounds := link.bounds.(enabled := true)));
      }
      SinceJoins(start, mid, trace);
    }

    method PoseLinkBounds(role: Role, port: int) returns (ok: bool)
      modifies this`link, this`trace
      ensures link == old(link).(bounds := link.bounds)
      ensures ok ==> link == Posed(text, old(link), role, port)
      ensures old(Sound()) ==> Sound()
      ensures ok ==> Bounding(text, link.bounds.table)
      ensures forall i :: i in Since(old(trace), trace) ==> PosedInOrder(text, old(link), i, role, port)
      ensures reliable ==> ok
    {
      ghost var start := trace;
      ok := true;
      if role.Initiator? {
        ok := Do(link.(bounds := link.bounds.(policy := Some(text.policy))));
      }
      ghost var relaxed := trace;
      if ok {
        assert IsTable(text, text.rules(role, port));
        ok := WriteRules(text.rules(role, port));
      }
      SinceJoins(start, relaxed, trace);
      if ok {
        ghost var loaded := trace;
        ok := EnableBootUnit(role);
        SinceJoins(start, loaded, trace);
      }
    }

    /** The unit is disabled while its file is still there. */
    method RemoveBootUnit() returns (ok: bool)
      modifies this`link, this`trace
      ensures link == old(link).(bounds := old(link).bounds.(unit := link.bounds.unit, enabled := link.bounds.enabled))
      ensures ok ==> link.bounds.unit.None? && !link.bounds.enabled
      ensures old(Sound()) ==> Sound()
      ensures reliable ==> ok
    {
      ok := Do(link.(bounds := link.bounds.(enabled := false)));
      if ok {
        ok := Do(link.(bounds := link.bounds.(unit := None)));
      }
    }

    method RemoveLoopbackPolicy() returns (ok: bool)
      modifies this`link, this`trace
      ensures link == old(link).(bounds := old(link).bounds.(policy := link.bounds.policy))
      ensures ok ==> link.bounds.policy.None?
      ensures old(Sound()) ==> Sound()
      ensures reliable ==> ok
    {
      ok := Do(link.(bounds := link.bounds.(policy := None)));
    }

    method RemoveLinkBounds(unitPresent: bool, rulesPresent: bool, policyPresent: bool) returns (ok: bool)
      requires unitPresent == link.bounds.unit.Some? && rulesPresent == link.bounds.rules.Some? && (policyPresent ==> link.bounds.policy.Some?)
      modifies this`link, this`trace
      ensures link == old(link).(bounds := link.bounds)
      ensures ok ==> link.bounds.unit.None? && link.bounds.rules.None? && (unitPresent ==> !link.bounds.enabled)
      ensures ok ==> link.bounds.policy == if policyPresent then None else old(link).bounds.policy
      ensures ok && old(link.bounds.table.Some? ==> link.bounds.rules.Some?) ==> link.bounds.table.None?
      ensures old(Sound() && Peerless(text, link)) ==> Sound()
      ensures reliable ==> ok
    {
      ok := true;
      if unitPresent {
        ok := RemoveBootUnit();
      }
      if ok && rulesPresent {
        ok := RemoveRules();
      }
      if ok && policyPresent {
        ok := RemoveLoopbackPolicy();
      }
    }

    // ---- The two files and the interface

    /** The manager creates the interface from a new description, then applies an edited one to it.
        A reload asked of a manager that does not run is neither an error nor an effect. */
    method ReloadNetworkConfiguration() returns (ok: bool)
      modifies this`link, this`trace
      ensures link == old(link).(device := link.device)
      ensures link.device == old(link).device || (link.managed && link.files.netdev.Some? && link.device == link.files.netdev)
      ensures ok && link.managed && link.files.netdev.Some? ==> link.device == link.files.netdev
      ensures old(Sound()) ==> Sound()
      ensures reliable ==> ok
    {
      if !link.managed {
        ok := Do(link);
        return;
      }
      ok := Do(if link.device.None? then link.(device := link.files.netdev) else link);
      if ok && link.device.Some? && link.files.netdev.Some? {
        ok := Do(link.(device := link.files.netdev));
      }
    }

    method WriteNetdev(content: string) returns (ok: bool)
      modifies this`link, this`trace
      ensures link == old(link) || link == old(link).(files := old(link).files.(netdev := Some(content)))
      ensures ok ==> link == old(link).(files := old(link).files.(netdev := Some(content)))
      ensures old(Sound()) && (text.peerIn(content) == "" || Bounding(text, old(link).bounds.table)) ==> Sound()
      ensures reliable ==> ok
    {
      ok := Do(link.(files := link.files.(netdev := Some(content))));
    }

    method WriteNetwork(content: string) returns (ok: bool)
      modifies this`link, this`trace
      ensures link == old(link) || link == old(link).(files := old(link).files.(network := Some(content)))
      ensures ok ==> link == old(link).(files := old(link).files.(network := Some(content)))
      ensures old(Sound()) ==> Sound()
      ensures reliable ==> ok
    {
      ok := Do(link.(files := link.files.(network := Some(content))));
    }

    /** Both files, the description first. */
    method WriteFiles(netdev: string, network: string) returns (ok: bool)
      modifies this`link, this`trace
      ensures link == old(link).(files := link.files)
      ensures link.files.netdev == old(link).files.netdev || link.files.netdev == Some(netdev)
      ensures ok ==> link.files == Files(Some(netdev), Some(network))
      ensures old(Sound()) && (text.peerIn(netdev) == "" || Bounding(text, old(link).bounds.table)) ==> Sound()
      ensures reliable ==> ok
    {
      ok := WriteNetdev(netdev);
      if ok {
        ok := WriteNetwork(network);
      }
    }

    // ---- Preparation and withdrawal

    /** The manager runs before it is asked to read anything, and the interface must then be there. */
    method Establish() returns (ok: bool)
      modifies this`link, this`trace
      ensures link == old(link).(device := link.device, managed := link.managed)
      ensures ok ==> link.managed && link.device.Some?
      ensures old(Sound()) ==> Sound()
      ensures reliable && old(link).files.netdev.Some? ==> ok
    {
      ok := Do(link.(managed := true));
      if ok {
        ok := ReloadNetworkConfiguration();
      }
      ok := ok && link.device.Some?;
    }

    method GenerateLinkKey() returns (ok: bool)
      modifies this`link, this`trace
      ensures link == old(link).(key := link.key)
      ensures ok ==> link.key
      ensures old(Sound()) ==> Sound()
      ensures reliable ==> ok
    {
      ok := Do(link.(key := true));
    }

    /**
     * prepareLink: the head of each file is rendered from the role, and what a junction wrote
     * below it is carried forward exactly as it was found.
     */
    method PrepareLink(role: Role) returns (r: Outcome)
      requires Coherent(text)
      modifies this`link, this`trace
      ensures r.Held? || r.Refused? ==> link == old(link) && trace == old(trace)
      ensures r.Held? <==> !r.Refused? && old(Prepared(text, link, role) && link.device.Some?)
      ensures old(HoldsAnotherRole(text, link, role)) ==> r.Refused?
      ensures r.Changed? ==> Prepared(text, link, role) && link.device.Some? && link.managed
      ensures PeerOf(text, link.files.netdev) == old(PeerOf(text, link.files.netdev))
      ensures r.Changed? ==> RouteOf(text, link.files.network) == old(RouteOf(text, link.files.network))
      ensures link.bounds == old(link.bounds)
      ensures old(Sound()) ==> Sound()
      ensures reliable && !old(HoldsAnotherRole(text, link, role)) ==> r.Held? || r.Changed?
    {
      var unreadable := MayFail();
      if unreadable || HoldsAnotherRole(text, link, role) {
        return Refused;
      }
      var netdev := text.netdevHead(role) + PeerOf(text, link.files.netdev);
      var network := text.networkHead(role) + RouteOf(text, link.files.network);
      CarriedForward(text, link.files, role);
      if link.key && link.files.netdev == Some(netdev) && link.files.network == Some(network) && link.device.Some? {
        return Held;
      }
      var ok := true;
      if !link.key {
        ok := GenerateLinkKey();
      }
      if ok {
        ok := WriteFiles(netdev, network);
      }
      if ok {
        ok := Establish();
      }
      r := if ok then Changed else Failed;
    }

    method RemoveFiles() returns (ok: bool)
      modifies this`link, this`trace
      ensures link == old(link).(files := link.files)
      ensures ok ==> link.files == Files(None, None)
      ensures link.files.netdev == old(link).files.netdev || link.files.netdev.None?
      ensures old(Sound()) ==> Sound()
      ensures reliable ==> ok
    {
      ok := true;
      if link.files.netdev.Some? {
        ok := Do(link.(files := link.files.(netdev := None)));
      }
      if ok && link.files.network.Some? {
        ok := Do(link.(files := link.files.(network := None)));
      }
    }

    /** The interface, then the two files, then a reload if there was a file to forget. */
    method Forget() returns (ok: bool)
      modifies this`link, this`trace
      ensures link == old(link).(device := link.device, files := link.files)
      ensures ok ==> link.device.None? && link.files == Files(None, None)
      ensures old(Sound()) ==> Sound()
      ensures reliable ==> ok
    {
      var described := link.files.netdev.Some? || link.files.network.Some?;
      ok := true;
      if link.device.Some? {
        ok := Do(link.(device := None));
      }
      if ok {
        ok := RemoveFiles();
      }
      if ok && described {
        ok := ReloadNetworkConfiguration();
      }
    }

    /**
     * withdrawLink: refused while a peer or any bound is left, whatever the role, and the key goes
     * last because it is the one thing here nothing can rebuild.
     */
    method WithdrawLink() returns (r: Outcome)
      modifies this`link, this`trace
      ensures r.Held? || r.Refused? ==> link == old(link) && trace == old(trace)
      ensures r.Held? <==> !r.Refused? && old(Withdrawn(link))
      ensures old(PeerOf(text, link.files.netdev) != "" || BoundsLeft(link.bounds)) ==> r.Refused?
      ensures r.Changed? ==> Withdrawn(link)
      ensures link.key != old(link.key) ==> link.device.None? && link.files == Files(None, None)
      ensures link.bounds == old(link.bounds) && link.managed == old(link.managed)
      ensures old(Sound()) ==> Sound()
      ensures reliable && old(PeerOf(text, link.files.netdev) == "" && !BoundsLeft(link.bounds)) ==> r.Held? || r.Changed?
    {
      var unreadable := MayFail();
      if unreadable || PeerOf(text, link.files.netdev) != "" || BoundsLeft(link.bounds) {
        return Refused;
      }
      if Withdrawn(link) {
        return Held;
      }
      var ok := Forget();
      if ok && link.key {
        ok := Do(link.(key := false));
      }
      r := if ok then Changed else Failed;
    }

    // ---- Junction and parting

    /** The files a junction writes and the reload that follows, behind bounds already posed. */
    method AttachPeer(j: Junction) returns (ok: bool)
      modifies this`link, this`trace
      requires Bounding(text, link.bounds.table)
      ensures link == old(link).(files := link.files, device := link.device)
      ensures ok ==> link.files == JoinedFiles(text, j)
      ensures ok && link.managed ==> link.device == link.files.netdev
      ensures old(Sound()) ==> Sound()
      ensures reliable ==> ok
    {
      ok := WriteFiles(text.netdevHead(j.role) + text.peer(j), text.networkHead(j.role) + text.route(j.role));
      if ok {
        ok := ReloadNetworkConfiguration();
      }
    }

    /**
     * joinLinkPeer: everything that can refuse reads only; the bounds are posed before the peer
     * exists, and they are posed whole again whenever anything drifted.
     */
    method JoinLinkPeer(j: Junction) returns (r: Outcome)
      requires Coherent(text)
      modifies this`link, this`trace
      ensures r.Held? || r.Refused? ==> link == old(link) && trace == old(trace)
      ensures r.Held? <==> !r.Refused? && old(JoinHeld(text, link, j))
      ensures !r.Refused? ==> old(Joinable(text, ports, link, j))
      ensures r.Changed? ==> link.files == JoinedFiles(text, j) && BoundsHeld(text, link.bounds, j)
      ensures r.Changed? ==> link.bounds.table == Some(text.rules(j.role, j.port)) && link.bounds.enabled
      ensures r.Changed? && link.managed ==> link.device == link.files.netdev
      ensures link == old(link).(files := link.files, device := link.device, bounds := link.bounds)
      ensures old(Sound()) ==> Sound()
      ensures !r.Refused? ==> old(link.key && link.files.network.Some? && text.roleOf(link.files.network.value) == Some(j.role)) && (j.role.Initiator? ==> j.port in ports)
      ensures reliable && old(Joinable(text, ports, link, j)) ==> r.Held? || r.Changed?
    {
      var unreadable := MayFail();
      if unreadable || !Joinable(text, ports, link, j) {
        return Refused;
      }
      if JoinHeld(text, link, j) {
        return Held;
      }
      var ok := PoseLinkBounds(j.role, j.port);
      if ok {
        ok := AttachPeer(j);
      }
      r := if ok then Changed else Failed;
    }

    /** Both files become their heads and the interface is configured from them: no peer is left. */
    method DetachPeer(role: Role) returns (ok: bool)
      requires Coherent(text)
      modifies this`link, this`trace
      ensures link == old(link).(files := link.files, device := link.device)
      ensures ok ==> link.files == PreparedFiles(text, role)
      ensures ok && old(Accounted(link)) ==> Peerless(text, link)
      ensures old(Sound()) ==> Sound()
      ensures reliable ==> ok
    {
      ok := WriteFiles(text.netdevHead(role), text.networkHead(role));
      if ok {
        ok := ReloadNetworkConfiguration();
      }
    }

    /**
     * partLinkPeer: the peer goes first and its bounds last, and only a peer that is the one the
     * plan names is ever taken away.
     */
    method PartLinkPeer(j: Junction) returns (r: Outcome)
      requires Coherent(text)
      modifies this`link, this`trace
      ensures r.Held? || r.Refused? ==> link == old(link) && trace == old(trace)
      ensures r.Held? <==> !r.Refused? && old(Parted(text, link, j.role))
      ensures old(!Parted(text, link, j.role) && !Partable(text, link, j)) ==> r.Refused?
      ensures r.Changed? ==> link.files == PreparedFiles(text, j.role) && Parted(text, link, j.role)
      ensures link.bounds != old(link.bounds) ==> link.files == PreparedFiles(text, j.role)
      ensures r.Changed? && old(link.bounds.unit.Some?) ==> !link.bounds.enabled
      ensures r.Changed? && old(Accounted(link)) ==> link.bounds.table.None? && Peerless(text, link)
      ensures link == old(link).(files := link.files, device := link.device, bounds := link.bounds)
      ensures old(Sound()) ==> Sound()
      ensures reliable && old(Parted(text, link, j.role) || Partable(text, link, j)) ==> r.Held? || r.Changed?
    {
      var unreadable := MayFail();
      if unreadable {
        return Refused;
      }
      if Parted(text, link, j.role) {
        return Held;
      }
      if !Partable(text, link, j) {
        return Refused;
      }
      var found := link.bounds;
      var ok := DetachPeer(j.role);
      if ok {
        ok := RemoveLinkBounds(found.unit.Some?, found.rules.Some?, j.role.Initiator? && found.policy.Some?);
      }
      r := if ok then Changed else Failed;
    }
  }

  /** The key is held, and both files are a role's heads with whatever a junction left below them. */
  predicate Prepared(t: Texts, l: Link, role: Role) {
    && l.key
    && l.files.netdev == Some(t.netdevHead(role) + PeerOf(t, l.files.netdev))
    && l.files.network == Some(t.networkHead(role) + RouteOf(t, l.files.network))
  }

  predicate Peerless(t: Texts, l: Link) { PeerOf(t, l.files.netdev) == "" && PeerOf(t, l.device) == "" }

  /** A file of the passage is there, and it is not this role it names. */
  predicate HoldsAnotherRole(t: Texts, l: Link, role: Role) {
    l.files.network.Some? && t.roleOf(l.files.network.value) != Some(role)
  }

  predicate HoldsRole(t: Texts, l: Link, role: Role) {
    l.files.network.Some? && t.roleOf(l.files.network.value) == Some(role)
  }

  predicate Withdrawn(l: Link) { !l.key && l.files == Files(None, None) && l.device.None? }

  predicate BoundsLeft(b: Bounds) { b.rules.Some? || b.unit.Some? || b.policy.Some? }

  function PreparedFiles(t: Texts, role: Role): Files { Files(Some(t.netdevHead(role)), Some(t.networkHead(role))) }

  function JoinedFiles(t: Texts, j: Junction): Files {
    Files(Some(t.netdevHead(j.role) + t.peer(j)), Some(t.networkHead(j.role) + t.route(j.role)))
  }

  /** A prepared passage in the junction's role; on the initiator, a port a managed service publishes. */
  predicate Joinable(t: Texts, ports: set<int>, l: Link, j: Junction) {
    l.key && l.files.netdev.Some? && HoldsRole(t, l, j.role) && (j.role.Initiator? ==> j.port in ports)
  }

  /** What is read of the bounds is files; the table the kernel holds is never asked. */
  predicate BoundsHeld(t: Texts, b: Bounds, j: Junction) {
    && b.rules == Some(t.rules(j.role, j.port)) && b.unit == Some(t.unit(j.role))
    && (j.role.Initiator? ==> b.policy == Some(t.policy))
  }

  predicate JoinHeld(t: Texts, l: Link, j: Junction) {
    l.files == JoinedFiles(t, j) && BoundsHeld(t, l.bounds, j) && l.device.Some?
  }

  /** Nothing a parting would take away: a listener's plan never asks for a host relaxation. */
  predicate Parted(t: Texts, l: Link, role: Role) {
    && PeerOf(t, l.files.netdev) == "" && RouteOf(t, l.files.network) == ""
    && l.bounds.rules.None? && l.bounds.unit.None? && (role.Initiator? ==> l.bounds.policy.None?)
  }

  predicate Partable(t: Texts, l: Link, j: Junction) {
    && HoldsRole(t, l, j.role)
    && (PeerOf(t, l.files.netdev) != "" ==> t.names(PeerOf(t, l.files.netdev), j.peerKey))
  }

  /** The machine once the bounds of a role and a port stand. */
  function Posed(t: Texts, l: Link, role: Role, port: int): Link {
    l.(bounds := l.bounds.(rules := Some(t.rules(role, port)), table := Some(t.rules(role, port)), unit := Some(t.unit(role)), enabled := true, policy := if role.Initiator? then Some(t.policy) else l.bounds.policy))
  }

  /** A head written above what a file held below it reads back as that same tail. */
  lemma CarriedForward(t: Texts, f: Files, role: Role)
    requires Coherent(t)
    ensures t.peerIn(t.netdevHead(role) + PeerOf(t, f.netdev)) == PeerOf(t, f.netdev)
    ensures t.routeIn(t.networkHead(role) + RouteOf(t, f.network)) == RouteOf(t, f.network)
  {
    assert t.netdevHead(role) + "" == t.netdevHead(role);
    assert t.networkHead(role) + "" == t.networkHead(role);
  }
}
