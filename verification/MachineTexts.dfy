/** What the flows over one machine use, as this product writes and reads it. */
module MachineTexts {
  import opened Wrappers
  import opened Placements
  import opened Lines
  import opened Units
  import Machine
  import Sheets
  import Directories
  import EgressRules
  import Deployment
  import Archives
  import Apply

  const VAULTWARDEN := "your-cloud-svc-vaultwarden"
  const USER_PREFIX := "your-cloud-user-"
  const MAX_SLUG := 16

  predicate SlugChar(c: char) { 'a' <= c <= 'z' || '0' <= c <= '9' || c == '-' }

  /** A slug opens on a letter or a digit, and is none of the reserved ones. */
  predicate Slug(s: string, reserved: set<string>) {
    1 <= |s| <= MAX_SLUG && s[0] != '-' && s !in reserved && forall c :: c in s ==> SlugChar(c)
  }

  /** An account derived from a slug fits the thirty-two characters a system gives a name, and may need them all. */
  lemma AccountsFit(s: string, reserved: set<string>)
    requires Slug(s, reserved)
    ensures |USER_PREFIX + s| <= 32
    ensures Slug("aaaaaaaaaaaaaaaa", {}) && |USER_PREFIX + "aaaaaaaaaaaaaaaa"| == 32
  {
    assert |USER_PREFIX| == 16 && |"aaaaaaaaaaaaaaaa"| == 16;
  }

  predicate IsUser(account: string, reserved: set<string>) {
    USER_PREFIX <= account && Slug(account[|USER_PREFIX|..], reserved)
  }

  const RULES_PATH := "/etc/your-cloud/egress/rules.nft"

  /** The oneshot unit that poses the table at boot, before any network is up. */
  function UnitLines(): seq<string> {
    ["[Unit]", Assigned("Description", "Your Cloud private service egress confinement"), Assigned("DefaultDependencies", "no"),
     Assigned("Wants", "network-pre.target"), Assigned("Before", "network-pre.target"), Assigned("ConditionPathExists", RULES_PATH), ""]
    + ["[Service]", Assigned("Type", "oneshot"), Assigned("RemainAfterExit", "yes"), Assigned("ExecStart", "/usr/sbin/nft --file " + RULES_PATH), ""]
    + ["[Install]", Assigned("WantedBy", "sysinit.target")]
  }

  function UnitText(prose: seq<string>): string { Unlines(prose + UnitLines()) }

  function Real(prose: seq<string>, comments: EgressRules.Comments, reserved: set<string>): Machine.Texts {
    Machine.Texts(
      [VAULTWARDEN],
      account => IsUser(account, reserved),
      (w, port, origin) => Sheets.RenderSheet(prose, w, port, origin),
      Directories.DurableDirectories,
      Sheets.ImageOf,
      Sheets.PublishedLoopbackPort,
      confined => EgressRules.RenderEgressRules(comments, confined),
      EgressRules.Confines,
      UnitText(prose))
  }

  lemma DeliveredProfileIsNoUser(reserved: set<string>)
    ensures !IsUser(VAULTWARDEN, reserved)
  {
    assert VAULTWARDEN[11] == 's' && USER_PREFIX[11] == 'u';
  }

  lemma PrefixIsOneLine()
    ensures OneLine(USER_PREFIX) && EgressRules.Nameable(VAULTWARDEN)
  {
  }

  /** Every account this machine may confine can be named on one line of its table. */
  lemma ConfinableIsNameable(prose: seq<string>, comments: EgressRules.Comments, reserved: set<string>, account: string)
    requires Machine.Confinable(Real(prose, comments, reserved), account)
    ensures EgressRules.Nameable(account)
  {
    PrefixIsOneLine();
    if IsUser(account, reserved) {
      var slug := account[|USER_PREFIX|..];
      assert account == USER_PREFIX + slug;
      assert account[|account| - 1] == slug[|slug| - 1] && slug[|slug| - 1] in slug;
    }
  }

  /** What the flows ask of the texts of this product is what they give. */
  lemma RealTextsAreCoherent(prose: seq<string>, comments: EgressRules.Comments, reserved: set<string>)
    requires EgressRules.AllCommentary(comments)
    ensures Machine.Coherent(Real(prose, comments, reserved))
  {
    var t := Real(prose, comments, reserved);
    DeliveredProfileIsNoUser(reserved);
    forall c: seq<Machine.Confined> | Machine.AllNamedConfinable(t, c) ensures t.confines(t.rules(c)) == Machine.Identifiers(c) {
      forall i | 0 <= i < |c| ensures EgressRules.Nameable(c[i].account) {
        ConfinableIsNameable(prose, comments, reserved, c[i].account);
      }
      EgressRules.RulesConfineExactly(comments, c);
    }
    forall w: Placement ensures if w.BearsData() then w.dataDirectory in t.durable(w) else t.durable(w) == [] {
      if w.BearsData() {
        Directories.NamingKeeps([w.dataDirectory], w.dataDirectory, w.volumes);
      }
    }
  }

  /** Three texts of a placement that a sheet gives a line each. */
  predicate OnOneLine(w: Placement) { OneLine(w.description) && OneLine(w.image) && OneLine(w.containerName) }

  /** The image a sheet of this product pins is the one its container will run. */
  lemma DesiredRunsItsImage(prose: seq<string>, comments: EgressRules.Comments, reserved: set<string>, s: Deployment.Instance)
    requires Commentary(prose) && OneLine(s.where.description) && OneLine(s.where.image)
    ensures var t := Real(prose, comments, reserved);
            t.imageOf(Deployment.Desired(t, s)) == s.where.image
  {
    Sheets.ImageReadsBack(prose, s.where, s.localPort, s.originHost);
  }

  /** What a run asks of every request is met by what a decoded plan of this product names. */
  lemma PlansAreApprovable(prose: seq<string>, comments: EgressRules.Comments, reserved: set<string>, q: Apply.Request)
    requires Commentary(prose) && OnOneLine(q.s.where)
    requires q.s.where.account == VAULTWARDEN || IsUser(q.s.where.account, reserved)
    requires (q.Deploy? && q.s.door.Private?) || q.Archiving() ==> q.s.where.BearsData()
    ensures Apply.Approvable(Real(prose, comments, reserved), q)
  {
    DesiredRunsItsImage(prose, comments, reserved, q.s);
  }

  /** A deployment of this product leaves a port its archives can read. */
  lemma DeployedCanBeArchived(prose: seq<string>, comments: EgressRules.Comments, reserved: set<string>, h: Machine.Host, s: Deployment.Instance)
    requires Commentary(prose) && LEAST <= s.localPort <= GREATEST && OnOneLine(s.where)
    requires Deployment.DeploymentHeld(Real(prose, comments, reserved), h, s)
    ensures var t := Real(prose, comments, reserved);
            Archives.Placed(t, h, s.where.account) && t.portOf(h.units.sheets[s.where.account]) == Some(s.localPort)
  {
    Sheets.PublishedPortReadsBack(prose, s.where, s.localPort, s.originHost);
  }
}
