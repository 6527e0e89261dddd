/** One approved operation beside its signed rollback, and every run of such operations. */
module Apply {
  import opened Wrappers
  import opened Placements
  import opened Machine
  import opened Egress
  import opened Deployment
  import opened Removal
  import opened Archives
  import Exchange

  datatype Request =
    | Deploy(s: Instance)
    | Remove(s: Instance)
    | Snapshot(s: Instance)
    | Discard(s: Instance)
    | Restore(s: Instance)
  {
    predicate Archiving() { Snapshot? || Discard? || Restore? }

    function Manner(): Manner { if Discard? then Discarding else if Archiving() then Copying else Keeping }
  }

  datatype Conclusion = Applied(changed: bool) | RefusedBeforeAnyEffect | RolledBack | Partial

  /** What the decoding of a plan has already established of the instance it names. */
  ghost predicate Approvable(text: Texts, q: Request) {
    && Confinable(text, q.s.where.account)
    && (q.Deploy? && q.s.door.Private? ==> q.s.where.BearsData())
    && (q.Deploy? ==> text.imageOf(Desired(text, q.s)) == q.s.where.image)
    && (q.Archiving() ==> q.s.where.BearsData())
  }

  /** The trees and the archives a request may touch at all. */
  function FootprintOf(q: Request): Footprint {
    match q
    case Deploy(s) => DeployFootprint(s)
    case Remove(_) => Footprint({}, {})
    case Snapshot(s) => SnapshotFootprint(s)
    case Discard(s) => DiscardFootprint(s)
    case Restore(s) => RestoreFootprint(s)
  }

  function PairFootprint(requested: Request, rollback: Request): Footprint {
    Footprint(FootprintOf(requested).trees + FootprintOf(rollback).trees,
              FootprintOf(requested).archives + FootprintOf(rollback).archives)
  }

  /** Every instant so far was safe, and the machine stands in a state an operation may begin from. */
  ghost predicate Steady(x: Executor)
    reads x
  {
    AllGuarded(x.text, x.trace, x.host) && Confining(x.text, x.host) && Sound(x.host)
  }

  /** What a request leaves of the machine it found, whether it acted or found everything done. */
  ghost predicate Reached(text: Texts, before: Host, h: Host, q: Request) {
    match q
    case Deploy(s) => DeploymentHeld(text, h, s)
    case Remove(s) => Removed(text, h, s.where.account)
    case Discard(s) => SlotPath(s) !in h.holdings.disk.archives
    case Snapshot(s) => SnapshotTaken(before, h, s)
    case Restore(s) => DataReturned(before, h, s)
  }

  /** What a request that failed once it had begun leaves of the data and of the archives. */
  ghost predicate Interrupted(before: Host, h: Host, q: Request) {
    match q
    case Deploy(_) => Keeps(before, h)
    case Remove(_) => Keeps(before, h)
    case Discard(s) =>
      && h.holdings.disk.trees == before.holdings.disk.trees
      && (h.holdings.disk.archives == before.holdings.disk.archives || h.holdings.disk.archives == before.holdings.disk.archives - {SlotPath(s)})
    case Snapshot(s) => SlotPath(s) !in h.holdings.disk.archives || SnapshotTaken(before, h, s)
    case Restore(s) => ReturnFailed(before.holdings.disk, h.holdings.disk, s)
  }

  /** What a request needs to find of the machine beyond a plan that was approved. */
  predicate Feasible(text: Texts, h: Host, q: Request) {
    match q
    case Deploy(_) => ConfinedSheets(text, h) <= h.users.accounts.Keys
    case Remove(_) => ConfinedSheets(text, h) <= h.users.accounts.Keys
    case Snapshot(s) => CanBeArchived(text, h, s) && SlotPath(s) !in h.holdings.disk.archives
    case Discard(_) => true
    case Restore(s) => CanRestart(text, h, s) && SlotPath(s) in h.holdings.disk.archives
  }

  /** An operation is begun on the machine as it was just observed. */
  ghost predicate Begun(x: Executor, q: Request)
    reads x
  {
    x.operation == Operation(q.s.where.account, q.Manner(), FootprintOf(q), x.host)
  }

  /** The flows that deploy a service and take it away. */
  method ServiceFlow(x: Executor, q: Request) returns (r: Outcome)
    requires Coherent(x.text) && Approvable(x.text, q) && !q.Archiving() && Begun(x, q)
    modifies x`host, x`trace
    ensures r.Held? || r.Refused? ==> x.host == old(x.host) && x.trace == old(x.trace)
    ensures r.Held? || r.Changed? ==> Reached(x.text, old(x.host), x.host, q)
    ensures r.Failed? ==> Interrupted(old(x.host), x.host, q)
    ensures q.Deploy? && old(DeploymentHeld(x.text, x.host, q.s)) ==> r.Held? || r.Refused?
    ensures OthersKept(old(x.host), x.host, q.s.where.account) && KeepsValues(old(x.host), x.host)
    ensures OnlyWithin(FootprintOf(q), old(x.host), x.host)
    ensures Keeps(old(x.host), x.host)
    ensures old(Quiet(x)) ==> Quiet(x)
    ensures x.reliable && old(Feasible(x.text, x.host, q)) ==> r.Held? || r.Changed?
  {
    match q {
      case Deploy(s) =>
        var rootless: bool := *;
        var present := s.where.account in x.host.users.accounts;
        r := Deployment.Deploy(x, Capabilities(present, rootless), s);
      case Remove(s) => r := Removal.Remove(x, s);
    }
  }

  /** The flows that write an archive, destroy one, and return to one. */
  method ArchiveFlow(x: Executor, q: Request) returns (r: Outcome)
    requires Coherent(x.text) && Approvable(x.text, q) && q.Archiving() && Begun(x, q)
    modifies x`host, x`trace
    ensures r.Held? || r.Refused? ==> x.host == old(x.host) && x.trace == old(x.trace)
    ensures r.Held? || r.Changed? ==> Reached(x.text, old(x.host), x.host, q)
    ensures r.Failed? ==> Interrupted(old(x.host), x.host, q)
    ensures OthersKept(old(x.host), x.host, q.s.where.account) && KeepsValues(old(x.host), x.host)
    ensures OnlyWithin(FootprintOf(q), old(x.host), x.host)
    ensures old(Quiet(x)) ==> Quiet(x)
    ensures x.reliable && old(Feasible(x.text, x.host, q)) ==> r.Held? || r.Changed?
  {
    match q {
      case Snapshot(s) => r := SnapshotService(x, s);
      case Discard(s) => r := DiscardSnapshot(x, s);
      case Restore(s) => r := RestoreService(x, s);
    }
  }

  /** The machine is observed again, judged capable or not, and acted on by the flow of the operation. */
  method Perform(x: Executor, q: Request) returns (r: Outcome)
    requires Coherent(x.text) && Approvable(x.text, q)
    modifies x`host, x`trace, x`operation
    ensures r.Held? || r.Refused? ==> x.host == old(x.host) && x.trace == old(x.trace)
    ensures r.Held? || r.Changed? ==> Reached(x.text, old(x.host), x.host, q)
    ensures r.Failed? ==> Interrupted(old(x.host), x.host, q)
    ensures q.Deploy? && old(DeploymentHeld(x.text, x.host, q.s)) ==> r.Held? || r.Refused?
    ensures OthersKept(old(x.host), x.host, q.s.where.account) && KeepsValues(old(x.host), x.host)
    ensures OnlyWithin(FootprintOf(q), old(x.host), x.host)
    ensures !q.Archiving() ==> Keeps(old(x.host), x.host)
    ensures old(Steady(x)) ==> Steady(x)
    ensures x.reliable && old(Feasible(x.text, x.host, q)) ==> r.Held? || r.Changed?
  {
    var unobserved := x.MayFail();        // or judged not capable
    if unobserved {
      return Refused;
    }
    x.operation := Operation(q.s.where.account, q.Manner(), FootprintOf(q), x.host);
    if q.Archiving() {
      r := ArchiveFlow(x, q);
    } else {
      r := ServiceFlow(x, q);
    }
  }

  /** The signed rollback is an ordinary operation: anything but its state reached is a failure of it. */
  method AttemptRollback(x: Executor, rollback: Request) returns (ok: bool)
    requires Coherent(x.text) && Approvable(x.text, rollback)
    modifies x`host, x`trace, x`operation, x`undoings
    ensures x.undoings == old(x.undoings) + 1
    ensures ok ==> Reached(x.text, old(x.host), x.host, rollback)
    ensures !ok ==> x.host == old(x.host) || Interrupted(old(x.host), x.host, rollback)
    ensures OthersKept(old(x.host), x.host, rollback.s.where.account) && KeepsValues(old(x.host), x.host)
    ensures OnlyWithin(FootprintOf(rollback), old(x.host), x.host)
    ensures !rollback.Archiving() ==> Keeps(old(x.host), x.host)
    ensures old(Steady(x)) ==> Steady(x)
    ensures x.reliable && old(Feasible(x.text, x.host, rollback)) ==> ok
  {
    x.undoings := x.undoings + 1;
    var r := Perform(x, rollback);
    ok := r.Held? || r.Changed?;
  }

  /**
   * One approved pair. A failure before the first effect stays a refusal and leaves the machine
   * exactly as it was; one after it attempts the signed rollback, once and never again, from the
   * machine `failed` that the failure left.
   */
  method ApplyPair(x: Executor, requested: Request, rollback: Request) returns (c: Conclusion, ghost failed: Host)
    requires Coherent(x.text) && Approvable(x.text, requested) && Approvable(x.text, rollback)
    requires requested.s.where.account == rollback.s.where.account
    modifies x
    ensures c.RefusedBeforeAnyEffect? || c == Applied(false) ==> x.host == old(x.host) && x.trace == old(x.trace)
    ensures c.Applied? ==> Reached(x.text, old(x.host), x.host, requested)
    ensures requested.Deploy? && old(DeploymentHeld(x.text, x.host, requested.s)) ==> c == Applied(false) || c.RefusedBeforeAnyEffect?
    ensures c.RolledBack? || c.Partial? ==> Interrupted(old(x.host), failed, requested)
    ensures c.RolledBack? || c.Partial? ==>
              OnlyWithin(FootprintOf(requested), old(x.host), failed) && OnlyWithin(FootprintOf(rollback), failed, x.host)
    ensures c.RolledBack? ==> Reached(x.text, failed, x.host, rollback)
    ensures c.Partial? ==> x.host == failed || Interrupted(failed, x.host, rollback)
    ensures x.undoings == old(x.undoings) + (if c.RolledBack? || c.Partial? then 1 else 0)
    ensures x.concluded == old(x.concluded) + [(x.host, x.trace)]
    ensures OthersKept(old(x.host), x.host, requested.s.where.account) && KeepsValues(old(x.host), x.host)
    ensures OnlyWithin(PairFootprint(requested, rollback), old(x.host), x.host)
    ensures !requested.Archiving() && !rollback.Archiving() ==> Keeps(old(x.host), x.host)
    ensures old(Steady(x)) ==> Steady(x)
    ensures x.reliable && old(Feasible(x.text, x.host, requested)) ==> c.Applied?
  {
    ghost var h, both := x.host, PairFootprint(requested, rollback);
    var outcome := Perform(x, requested);
    failed := x.host;
    OnlyWithinMore(FootprintOf(requested), both, h, failed);
    match outcome {
      case Held => c := Applied(false);
      case Changed => c := Applied(true);
      case Refused => c := RefusedBeforeAnyEffect;
      case Failed =>
        var ok := AttemptRollback(x, rollback);
        OnlyWithinMore(FootprintOf(rollback), both, failed, x.host);
        OnlyWithinJoins(both, h, failed, x.host);
        c := if ok then RolledBack else Partial;
    }
    x.concluded := x.concluded + [(x.host, x.trace)];
  }

  /** The same approved deployment applied a second time performs no effect and reports no change. */
  method ApplyDeploymentTwice(x: Executor, requested: Request, rollback: Request) returns (first: Conclusion, second: Conclusion)
    requires Coherent(x.text) && Approvable(x.text, requested) && Approvable(x.text, rollback)
    requires requested.Deploy? && requested.s.where.account == rollback.s.where.account
    modifies x
    ensures first.Applied? ==> DeploymentHeld(x.text, x.host, requested.s)
    ensures first.Applied? ==> second == Applied(false) || second.RefusedBeforeAnyEffect?
    ensures first.Applied? ==> x.undoings == old(x.undoings)
    ensures first.Applied? ==> x.concluded == old(x.concluded) + [(x.host, x.trace), (x.host, x.trace)]
  {
    ghost var failed;
    first, failed := ApplyPair(x, requested, rollback);
    second := first;
    if first.Applied? {
      second, failed := ApplyPair(x, requested, rollback);
    }
  }

  /**
   * A return beside the rollback that was frozen with it, a return to the reserved slot. The state
   * the return was replacing is held afterwards, whatever failed in either of the two, when it was
   * held elsewhere before, and unless the failure left it under its `.replaced` name alone. Of a
   * rollback that succeeds the condition is exact.
   */
  method ReturnOrUndo(x: Executor, s: Instance) returns (c: Conclusion, ghost failed: Host)
    requires Coherent(x.text) && Approvable(x.text, Restore(s))
    requires SlotPath(s) in x.host.holdings.disk.archives && s.where.dataDirectory in x.host.holdings.disk.trees
    modifies x
    ensures c.Applied? ==> DataReturned(old(x.host), x.host, s)
    ensures c.RefusedBeforeAnyEffect? ==> x.host == old(x.host)
    ensures var before := old(x.host).holdings.disk;
            var call := CallOf(before, s);
            (c.RolledBack? || c.Partial? ==> !Exchange.AsideOnly(before, failed.holdings.disk, call)) ==>
              Exchange.HeldOn(x.host.holdings.disk, call.current)
    ensures var before := old(x.host).holdings.disk;
            var call := CallOf(before, s);
            Exchange.HeldOn(Exchange.Elsewhere(before, call.data, call.reserved), call.current) ==>
              Exchange.HeldOn(x.host.holdings.disk, call.current)
    ensures var before := old(x.host).holdings.disk;
            var call := CallOf(before, s);
            c.RolledBack? ==>
              (Exchange.HeldOn(x.host.holdings.disk, call.current) <==>
                (Exchange.AsideOnly(before, failed.holdings.disk, call) ==> Exchange.Survives(before, failed.holdings.disk, call)))
  {
    ghost var before := x.host.holdings.disk;
    ghost var call := CallOf(before, s);
    c, failed := ApplyPair(x, Restore(s), Restore(s.(slot := RESERVED_SLOT)));
    ghost var after := x.host.holdings.disk;
    match c {
      case Applied(_) => assert Exchange.At(after.archives, call.reserved, call.current);
      case RefusedBeforeAnyEffect => assert Exchange.At(after.trees, call.data, call.current);
      case RolledBack => ReturnUndone(before, failed.holdings.disk, s);
      case Partial => ReturnLeft(before, failed.holdings.disk, after, s);
    }
  }

  lemma ReturnUndone(before: Exchange.Disk, failed: Exchange.Disk, s: Instance)
    requires SlotPath(s) in before.archives && s.where.dataDirectory in before.trees && ReservedPath(s) in failed.archives
    requires ReturnFailed(before, failed, s) && Exchange.OnlyMoved(before, failed, s.where.dataDirectory, ReservedPath(s))
    ensures var call := CallOf(before, s);
            var undone := Exchange.Exchanged(Exchange.Ensured(failed, call.data), call.reserved, call.data, call.reserved);
            && (Exchange.HeldOn(undone, call.current) <==>
                  (Exchange.AsideOnly(before, failed, call) ==> Exchange.Survives(before, failed, call)))
            && (Exchange.HeldOn(Exchange.Elsewhere(before, call.data, call.reserved), call.current) ==> Exchange.HeldOn(undone, call.current))
  {
    var call := CallOf(before, s);
    Exchange.SlotsAreApart(s.where.snapshotDirectory, s.slot, RESERVED_SLOT);
    if Exchange.AsideOnly(before, failed, call) {
      Exchange.AsideThenRollback(before, failed, call);
    } else {
      Exchange.FailedReturnThenRollback(before, failed, call);
    }
  }

  /** The rollback failed in its turn, or never reached the disk. */
  lemma ReturnLeft(before: Exchange.Disk, failed: Exchange.Disk, after: Exchange.Disk, s: Instance)
    requires SlotPath(s) in before.archives && s.where.dataDirectory in before.trees
    requires ReturnFailed(before, failed, s) && Exchange.OnlyMoved(before, failed, s.where.dataDirectory, ReservedPath(s))
    requires after == failed || ReturnFailed(failed, after, s.(slot := RESERVED_SLOT))
    requires Exchange.OnlyMoved(failed, after, s.where.dataDirectory, ReservedPath(s))
    ensures var call := CallOf(before, s);
            !Exchange.AsideOnly(before, failed, call)
            || Exchange.HeldOn(Exchange.Elsewhere(before, call.data, call.reserved), call.current) ==>
              Exchange.HeldOn(after, call.current)
  {
    var call := CallOf(before, s);
    if !Exchange.AsideOnly(before, failed, call) {
      Exchange.AnyRollbackKeeps(before, failed, after, call);
    } else if Exchange.HeldOn(Exchange.Elsewhere(before, call.data, call.reserved), call.current) {
      Exchange.HeldElsewhereIsKept(before, failed, after, call);
    }
  }

  /** In a steady machine, a deployment found held is confined: the reading of files is not mistaken. */
  lemma HeldIsConfined(text: Texts, h: Host, s: Instance)
    requires Confining(text, h) && Confinable(text, s.where.account) && DeploymentHeld(text, h, s)
    ensures Named(h, s.where.account)
  {
  }

  type Pair = (Request, Request)

  /** A path none of these pairs may touch. */
  ghost predicate OutOfReach(pairs: seq<Pair>, path: string) {
    forall p :: p in pairs ==> path !in PairFootprint(p.0, p.1).trees && path !in PairFootprint(p.0, p.1).archives
  }

  ghost predicate Unnamed(pairs: seq<Pair>, account: string) {
    forall p :: p in pairs ==> p.0.s.where.account != account
  }

  /** Nothing of the services these pairs do not name, and nothing at the paths they do not reach, has moved. */
  ghost predicate Elsewhere(pairs: seq<Pair>, before: Host, after: Host) {
    && (forall a :: Unnamed(pairs, a) ==> StandsAs(before, after, a))
    && (forall p :: OutOfReach(pairs, p) ==> Exchange.SameAt(before.holdings.disk.trees, after.holdings.disk.trees, p))
    && (forall p :: OutOfReach(pairs, p) ==> Exchange.SameAt(before.holdings.disk.archives, after.holdings.disk.archives, p))
  }

  lemma OnePairMore(pairs: seq<Pair>, n: nat, before: Host, mid: Host, after: Host)
    requires n < |pairs| && Elsewhere(pairs, before, mid)
    requires OthersKept(mid, after, pairs[n].0.s.where.account)
    requires OnlyWithin(PairFootprint(pairs[n].0, pairs[n].1), mid, after)
    ensures Elsewhere(pairs, before, after)
  {
    assert pairs[n] in pairs;
    forall a | Unnamed(pairs, a) ensures StandsAs(before, after, a) {
      OthersStandAsTheyDid(mid, after, pairs[n].0.s.where.account, a);
    }
    forall p | OutOfReach(pairs, p) ensures Exchange.SameAt(before.holdings.disk.trees, after.holdings.disk.trees, p) {
      assert Exchange.SameAt(mid.holdings.disk.trees, after.holdings.disk.trees, p);
    }
    forall p | OutOfReach(pairs, p) ensures Exchange.SameAt(before.holdings.disk.archives, after.holdings.disk.archives, p) {
      assert Exchange.SameAt(mid.holdings.disk.archives, after.holdings.disk.archives, p);
    }
  }

  /**
   * Every run of approved pairs, over any set of confined services, with any effect failing or
   * half-happening: every instant of it is safe, and nothing of any other service has moved.
   */
  method Run(x: Executor, pairs: seq<Pair>)
    requires Coherent(x.text)
    requires forall p :: p in pairs ==> Approvable(x.text, p.0) && Approvable(x.text, p.1) && p.0.s.where.account == p.1.s.where.account
    requires Steady(x)
    modifies x
    ensures Steady(x)
    ensures KeepsValues(old(x.host), x.host)
    ensures Elsewhere(pairs, old(x.host), x.host)
    ensures x.undoings <= old(x.undoings) + |pairs|
  {
    for n := 0 to |pairs|
      invariant Steady(x)
      invariant KeepsValues(old(x.host), x.host)
      invariant Elsewhere(pairs, old(x.host), x.host)
      invariant x.undoings <= old(x.undoings) + n
    {
      assert pairs[n] in pairs;
      ghost var mid := x.host;
      var c, failed := ApplyPair(x, pairs[n].0, pairs[n].1);
      OnePairMore(pairs, n, old(x.host), mid, x.host);
    }
  }
}
