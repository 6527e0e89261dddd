/** One approved operation on the passage beside its signed rollback, and every run of such pairs. */
module PassageRuns {
  import opened Wrappers
  import opened Passage

  datatype Request = Prepare(role: Role) | Withdraw(role: Role) | Join(j: Junction) | Part(j: Junction)

  datatype Conclusion = Applied(changed: bool) | RefusedBeforeAnyEffect | RolledBack | Partial

  /** The state an operation names, as its own test for having nothing to do reads it. */
  predicate Reached(t: Texts, l: Link, q: Request) {
    match q
    case Prepare(role) => Prepared(t, l, role) && l.device.Some?
    case Withdraw(_) => Withdrawn(l)
    case Join(j) => l.files == JoinedFiles(t, j) && BoundsHeld(t, l.bounds, j)
    case Part(j) => Parted(t, l, j.role)
  }

  /** The rollback a pair carries: the operation that undoes it, for the very same subject. */
  predicate Undoes(rollback: Request, q: Request) {
    match q
    case Prepare(role) => rollback == Withdraw(role)
    case Withdraw(role) => rollback == Prepare(role)
    case Join(j) => rollback == Part(j)
    case Part(j) => rollback == Join(j)
  }

  /** What a request needs to find beyond a plan that was approved. */
  predicate Feasible(x: Machine, q: Request)
    reads x
  {
    match q
    case Prepare(role) => !HoldsAnotherRole(x.text, x.link, role)
    case Withdraw(_) => PeerOf(x.text, x.link.files.netdev) == "" && !BoundsLeft(x.link.bounds)
    case Join(j) => Joinable(x.text, x.ports, x.link, j)
    case Part(j) => Parted(x.text, x.link, j.role) || Partable(x.text, x.link, j)
  }

  method Perform(x: Machine, q: Request) returns (r: Outcome)
    requires Coherent(x.text)
    modifies x`link, x`trace
    ensures r.Held? || r.Refused? ==> x.link == old(x.link) && x.trace == old(x.trace)
    ensures r.Held? || r.Changed? ==> Reached(x.text, x.link, q)
    ensures old(Reached(x.text, x.link, q) && (q.Join? ==> x.link.device.Some?)) ==> r.Held? || r.Refused?
    ensures !r.Failed? && old(x.Sound() && Loaded(x.link)) ==> Loaded(x.link)
    ensures (if q.Join? then r.Changed? else !q.Prepare? && (r.Held? || r.Changed?)) && old(x.Sound()) ==> Loaded(x.link)
    ensures q.Prepare? || q.Withdraw? ==> x.link.bounds == old(x.link.bounds)
    ensures q.Part? && x.link.bounds != old(x.link.bounds) ==> x.link.files == PreparedFiles(x.text, q.j.role)
    ensures old(x.Sound()) ==> x.Sound()
    ensures x.reliable && old(Feasible(x, q)) ==> r.Held? || r.Changed?
  {
    match q {
      case Prepare(role) => r := x.PrepareLink(role);
      case Withdraw(_) => r := x.WithdrawLink();
      case Join(j) => r := x.JoinLinkPeer(j);
      case Part(j) => r := x.PartLinkPeer(j);
    }
  }

  lemma PeerKeepsFilesApart(t: Texts, j: Junction)
    requires Coherent(t)
    ensures JoinedFiles(t, j) != PreparedFiles(t, j.role)
  {
    assert t.peerIn(t.netdevHead(j.role)) == "";
  }

  /** A pair that ended so left the kernel exactly the table of its file, whatever it found: a junction
      that acted, anything that found or left no bound. */
  predicate Settles(requested: Request, c: Conclusion) {
    match requested
    case Join(_) => c == Applied(true) || c.RolledBack?
    case Part(_) => c.Applied?
    case Withdraw(_) => c.Applied?
    case Prepare(_) => c.RolledBack?
  }

  /** What the conclusions a caller was given say of the table: it is the one its file describes when
      no pair was reported partial since the last one that settled it, or since a start that knew it. */
  predicate Known(pairs: seq<Pair>, conclusions: seq<Conclusion>, initially: bool)
    requires |pairs| == |conclusions|
  {
    if pairs == [] then initially
    else
      var n := |pairs| - 1;
      Settles(pairs[n].0, conclusions[n]) || (!conclusions[n].Partial? && Known(pairs[..n], conclusions[..n], initially))
  }

  type Pair = (Request, Request)

  /** One approved pair: a refusal leaves the machine as it was, a failure attempts one rollback. */
  method ApplyPair(x: Machine, requested: Request, rollback: Request) returns (c: Conclusion)
    requires Coherent(x.text)
    modifies x
    ensures c.RefusedBeforeAnyEffect? || c == Applied(false) ==> x.link == old(x.link) && x.trace == old(x.trace)
    ensures c.Applied? ==> Reached(x.text, x.link, requested)
    ensures c.RolledBack? ==> Reached(x.text, x.link, rollback)
    ensures x.undoings == old(x.undoings) + (if c.RolledBack? || c.Partial? then 1 else 0)
    ensures old(x.Sound()) ==> x.Sound()
    ensures !c.Partial? && Undoes(rollback, requested) && old(x.Sound() && Loaded(x.link)) ==> Loaded(x.link)
    ensures Settles(requested, c) && Undoes(rollback, requested) && old(x.Sound()) ==> Loaded(x.link)
    ensures x.reliable && old(Feasible(x, requested)) ==> c.Applied?
  {
    var outcome := Perform(x, requested);
    match outcome {
      case Held => c := Applied(false);
      case Changed => c := Applied(true);
      case Refused => c := RefusedBeforeAnyEffect;
      case Failed =>
        x.undoings := x.undoings + 1;
        var undone := Perform(x, rollback);
        if requested.Part? && Undoes(rollback, requested) {
          PeerKeepsFilesApart(x.text, requested.j);
        }
        c := if undone.Held? || undone.Changed? then RolledBack else Partial;
    }
  }

  /**
   * Every run of approved pairs, in any order, with any effect failing or half-happening: at every
   * instant of it a described or standing peer has its bounding table in the kernel. Where the
   * conclusions say the table is known, it is moreover the one its file describes, so a junction
   * that reads as held is the junction the kernel bounds.
   */
  method Run(x: Machine, pairs: seq<Pair>) returns (conclusions: seq<Conclusion>)
    requires Coherent(x.text) && x.Sound()
    requires forall p :: p in pairs ==> Undoes(p.1, p.0)
    modifies x
    ensures |conclusions| == |pairs|
    ensures AllBounded(x.text, x.trace) && Bounded(x.text, x.link)
    ensures x.Sound()
    ensures Known(pairs, conclusions, old(Loaded(x.link))) ==> Loaded(x.link)
    ensures Known(pairs, conclusions, old(Loaded(x.link))) ==>
              forall j :: JoinHeld(x.text, x.link, j) ==> x.link.bounds.table == Some(x.text.rules(j.role, j.port))
    ensures x.undoings <= old(x.undoings) + |pairs|
  {
    conclusions := [];
    for n := 0 to |pairs|
      invariant |conclusions| == n
      invariant x.Sound()
      invariant Known(pairs[..n], conclusions, old(Loaded(x.link))) ==> Loaded(x.link)
      invariant x.undoings <= old(x.undoings) + n
    {
      assert pairs[n] in pairs;
      var c := ApplyPair(x, pairs[n].0, pairs[n].1);
      assert pairs[..n + 1][..n] == pairs[..n] && (conclusions + [c])[..n] == conclusions;
      conclusions := conclusions + [c];
    }
    assert pairs[..|pairs|] == pairs;
  }

  /** Joining and then parting puts both prepared files back, byte for byte, and leaves no bound. */
  method JoinThenPart(x: Machine, j: Junction) returns (joined: Outcome, parted: Outcome)
    requires Coherent(x.text) && x.Sound() && x.link.files == PreparedFiles(x.text, j.role)
    modifies x`link, x`trace
    ensures joined.Changed? ==> !parted.Held?
    ensures joined.Changed? && parted.Changed? ==> x.link.files == old(x.link.files)
    ensures joined.Changed? && parted.Changed? ==> Parted(x.text, x.link, j.role) && Peerless(x.text, x.link)
    ensures joined.Changed? && parted.Changed? ==> x.link.bounds.table.None? && !x.link.bounds.enabled
    ensures joined.Refused? ==> parted.Refused? && x.link == old(x.link)
    ensures x.reliable && joined.Changed? ==> parted.Changed?
    ensures x.Sound()
  {
    joined := x.JoinLinkPeer(j);
    parted := Refused;
    if joined.Changed? {
      JoinedIsPrepared(x.text, x.link, j);
    }
    if !joined.Refused? {
      parted := x.PartLinkPeer(j);
    }
  }

  /**
   * A preparation replayed over the junction of its own role, one that was found or one that has
   * just been made, finds it done and rewrites nothing: `mid` is the machine the junction left. It
   * acts only where the interface is missing, and even then both files come out as they were.
   */
  method PrepareAfterJoin(x: Machine, j: Junction) returns (joined: Outcome, prepared: Outcome, ghost mid: Link)
    requires Coherent(x.text)
    modifies x`link, x`trace
    ensures joined.Held? ==> mid == old(x.link) && mid.device.Some?
    ensures joined.Changed? && old(x.link.managed) ==> mid.device.Some?
    ensures joined.Held? || joined.Changed? ==> mid.files == JoinedFiles(x.text, j)
    ensures (joined.Held? || joined.Changed?) && mid.device.Some? ==> (prepared.Held? || prepared.Refused?) && x.link == mid
    ensures prepared.Held? || prepared.Changed? ==> x.link.files == JoinedFiles(x.text, j)
    ensures x.reliable && (joined.Held? || joined.Changed?) ==> if mid.device.Some? then prepared.Held? else prepared.Changed?
  {
    joined := x.JoinLinkPeer(j);
    mid := x.link;
    prepared := Refused;
    if joined.Held? || joined.Changed? {
      JoinedIsPrepared(x.text, x.link, j);
      prepared := x.PrepareLink(j.role);
    }
  }

  /** The two files of a junction are that role's heads above exactly the two tails it wrote. */
  lemma JoinedIsPrepared(t: Texts, l: Link, j: Junction)
    requires Coherent(t) && l.key && l.files == JoinedFiles(t, j)
    ensures Prepared(t, l, j.role) && HoldsRole(t, l, j.role)
    ensures PeerOf(t, l.files.netdev) == t.peer(j) && RouteOf(t, l.files.network) == t.route(j.role)
  {
  }

  /** A junction found standing can always be undone by its own plan, and by no other peer's. */
  lemma OnlyItsOwnPlanParts(t: Texts, l: Link, j: Junction, other: Junction)
    requires Coherent(t) && l.files == JoinedFiles(t, j)
    ensures Partable(t, l, j) && !Parted(t, l, other.role)
    ensures t.spelled(j.peerKey) && t.spelled(j.peerHost) && t.spelled(other.peerKey) ==>
              (Partable(t, l, other) <==> other.role == j.role && other.peerKey == j.peerKey)
  {
  }

  /**
   * After a partial pair, a junction found held need not be: the bounds are read from files, so a
   * table written and never loaded is found held while the kernel still bounds the former port.
   */
  lemma HeldAboveAnotherTable(t: Texts, l: Link, former: Junction, j: Junction)
    requires Coherent(t) && JoinHeld(t, l, former) && l.bounds.table == l.bounds.rules && Accounted(l)
    requires former.(port := j.port) == j && t.rules(j.role, j.port) != t.rules(j.role, former.port)
    requires t.peer(j) == t.peer(former)
    ensures var half := l.(bounds := l.bounds.(rules := Some(t.rules(j.role, j.port))));
            JoinHeld(t, half, j) && half.bounds.table == Some(t.rules(j.role, former.port)) && Bounded(t, half) && Accounted(half)
  {
  }
}
