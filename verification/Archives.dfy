/** The three archive operations of a data-bearing service, and the return they are built on. */
module Archives {
  import opened Wrappers
  import opened Placements
  import opened Machine
  import opened Egress
  import opened Deployment
  import Exchange

  const RESERVED_SLOT := "previous"

  function SlotPath(s: Instance): string { Exchange.ArchivePath(s.where.snapshotDirectory, s.slot) }

  function ReservedPath(s: Instance): string { Exchange.ArchivePath(s.where.snapshotDirectory, RESERVED_SLOT) }

  /** A snapshot writes its slot and the file beside it; a return moves the data and the reserved slot. */
  function SnapshotFootprint(s: Instance): Footprint { Footprint({}, {SlotPath(s), Exchange.Temporary(SlotPath(s))}) }

  function DiscardFootprint(s: Instance): Footprint { Footprint({}, {SlotPath(s)}) }

  function RestoreFootprint(s: Instance): Footprint {
    Footprint({s.where.dataDirectory, Exchange.Restoring(s.where.dataDirectory), Exchange.Replaced(s.where.dataDirectory)},
              {ReservedPath(s), Exchange.Temporary(ReservedPath(s))})
  }

  /** What an archive operation may move: its own service's run, and what the machine holds of its data. */
  ghost predicate Archived(h: Host, after: Host, account: string) {
    && after == h.(units := after.units, holdings := after.holdings)
    && after.units.sheets == h.units.sheets && after.units.generated == h.units.generated && after.units.images == h.units.images
    && after.units.running - {account} == h.units.running - {account}
    && after.units.containers - {account} == h.units.containers - {account}
    && after.holdings.secrets == h.holdings.secrets && after.holdings.environmentFiles == h.holdings.environmentFiles
  }

  /** The sheet is there and names a loopback port: without one, nothing is touched. */
  predicate Placed(text: Texts, h: Host, account: string) {
    account in h.units.sheets && text.portOf(h.units.sheets[account]).Some?
  }

  /** The sheet of this service is placed, and generated where the service has to be started again. */
  predicate CanRestart(text: Texts, h: Host, s: Instance) {
    Placed(text, h, s.where.account) && (s.where.account in h.units.running ==> s.where.account in h.units.generated)
  }

  predicate CanBeArchived(text: Texts, h: Host, s: Instance) {
    CanRestart(text, h, s) && s.where.dataDirectory in h.holdings.directories && s.where.dataDirectory in h.holdings.disk.trees
  }

  method RequirePlacedService(x: Executor, account: string) returns (r: Result<int>)
    ensures r.Ok? ==> Placed(x.text, x.host, account) && Some(r.value) == x.text.portOf(x.host.units.sheets[account])
    ensures x.reliable && Placed(x.text, x.host, account) ==> r.Ok?
  {
    var unreadable := x.MayFail();
    if unreadable || account !in x.host.units.sheets {
      return Err;
    }
    var port := x.text.portOf(x.host.units.sheets[account]);
    return if port.Some? then Ok(port.value) else Err;
  }

  /** A service is put back exactly as it was found: left down where it was down, proven where it ran. */
  method RestartAndProve(x: Executor, account: string, active: bool, port: int) returns (ok: bool)
    requires account == x.operation.account
    modifies x`host, x`trace
    ensures Published(old(x.host), x.host, account)
    ensures x.host.units.sheets == old(x.host).units.sheets && x.host.units.generated == old(x.host).units.generated
    ensures !active ==> ok && x.host == old(x.host) && x.trace == old(x.trace)
    ensures ok && active ==> account in x.host.units.running && x.trace.Then? && x.trace.instant.event == Asking(port)
    ensures old(Quiet(x) && account in x.host.units.sheets && Named(x.host, account)) ==> Quiet(x)
    ensures x.reliable && account in old(x.host).units.generated ==> ok
  {
    if !active {
      return true;
    }
    ok := StartService(x, account);
    if ok {
      ok := ProbeAnswers(x, port);
    }
  }

  method StopIfActive(x: Executor, account: string, active: bool) returns (ok: bool)
    requires account == x.operation.account && active == (account in x.host.units.running)
    modifies x`host, x`trace
    ensures Archived(old(x.host), x.host, account) && x.host.holdings == old(x.host).holdings
    ensures ok ==> account !in x.host.units.running
    ensures !active ==> ok && x.host == old(x.host)
    ensures old(Quiet(x)) ==> Quiet(x)
    ensures x.reliable ==> ok
  {
    ok := true;
    if active {
      ok := StopService(x, account);
    }
  }

  /** One effect on the archives this operation may write, and on nothing else. */
  method MoveArchives(x: Executor, archives: map<string, Exchange.Content>) returns (ok: bool)
    requires !x.operation.manner.Keeping?
    requires Exchange.SameBut(x.host.holdings.disk.archives, archives, x.operation.footprint.archives)
    modifies x`host, x`trace
    ensures x.host == old(x.host) || x.host == WithArchives(old(x.host), archives)
    ensures ok ==> x.host == WithArchives(old(x.host), archives)
    ensures old(Quiet(x) && (x.operation.manner.Copying? ==> x.operation.account !in x.host.units.running)) ==> Quiet(x)
    ensures x.reliable ==> ok
  {
    ok := x.Do(Effect, WithArchives(x.host, archives));
  }

  function WithArchives(h: Host, archives: map<string, Exchange.Content>): Host {
    h.(holdings := h.holdings.(disk := h.holdings.disk.(archives := archives)))
  }

  /** An archive is written beside its slot and renamed into it; a slot that is taken is never replaced. */
  method ArchiveServiceData(x: Executor, data: string, path: string) returns (ok: bool)
    requires x.operation.manner.Copying? && {path, Exchange.Temporary(path)} <= x.operation.footprint.archives
    modifies x`host, x`trace
    ensures x.host == WithArchives(old(x.host), x.host.holdings.disk.archives)
    ensures Exchange.SameBut(old(x.host).holdings.disk.archives, x.host.holdings.disk.archives, {path, Exchange.Temporary(path)})
    ensures path in old(x.host).holdings.disk.archives ==> !ok && x.host == old(x.host)
    ensures ok ==> path in x.host.holdings.disk.archives
    ensures path !in old(x.host).holdings.disk.archives && path in x.host.holdings.disk.archives ==>
              data in x.host.holdings.disk.trees
              && Exchange.At(x.host.holdings.disk.archives, path, x.host.holdings.disk.trees[data])
    ensures old(Quiet(x) && x.operation.account !in x.host.units.running) ==> Quiet(x)
    ensures x.reliable && path !in old(x.host).holdings.disk.archives && data in old(x.host).holdings.disk.trees ==> ok
  {
    var disk, staged := x.host.holdings.disk, Exchange.Temporary(path);
    if path in disk.archives || data !in disk.trees {
      return false;
    }
    Exchange.TemporaryIsApart(path);
    var written: Exchange.Content := *;        // the file may hold anything until it has been written whole
    if x.reliable {
      written := disk.trees[data];
    }
    ok := MoveArchives(x, disk.archives[staged := written]);
    if ok && written == disk.trees[data] {
      ok := MoveArchives(x, (disk.archives - {staged})[path := written]);
      if ok { return; }
    }
    ok := MoveArchives(x, x.host.holdings.disk.archives - {staged});
    ok := false;
  }

  /** The return, as one effect: what it does to the disk is what Exchange proves of it. */
  method ExchangeServiceData(x: Executor, archive: string, data: string, reserved: string) returns (ok: bool)
    requires x.operation.manner.Copying? && archive != Exchange.Temporary(reserved)
    requires {data, Exchange.Restoring(data), Exchange.Replaced(data)} <= x.operation.footprint.trees
    requires {reserved, Exchange.Temporary(reserved)} <= x.operation.footprint.archives
    modifies x`host, x`trace
    ensures x.host == old(x.host).(holdings := old(x.host).holdings.(directories := x.host.holdings.directories, disk := x.host.holdings.disk))
    ensures OnlyWithin(x.operation.footprint, old(x.host), x.host)
    ensures ok ==> archive in old(x.host).holdings.disk.archives && data in old(x.host).holdings.disk.trees
                   && x.host.holdings.disk == Exchange.Exchanged(old(x.host).holdings.disk, archive, data, reserved)
    ensures archive in old(x.host).holdings.disk.archives && data in old(x.host).holdings.disk.trees ==>
              var c := Exchange.Call(data, archive, reserved, old(x.host).holdings.disk.trees[data], old(x.host).holdings.disk.archives[archive]);
              Exchange.Preserved(x.host.holdings.disk, c) && Exchange.Aftermath(old(x.host).holdings.disk, x.host.holdings.disk, c)
    ensures ok ==> data in x.host.holdings.directories
    ensures old(Quiet(x) && x.operation.account !in x.host.units.running) ==> Quiet(x)
    ensures x.reliable && archive in old(x.host).holdings.disk.archives && data in old(x.host).holdings.disk.trees ==> ok
  {
    ghost var h := x.host;
    var storage := new Exchange.Storage(x.host.holdings.disk, x.reliable);
    var exchanged := storage.ExchangeServiceData(archive, data, reserved);
    var found: set<string> := *;
    var directories := (set d | d in x.host.holdings.directories && !AtOrBelow(data, d)) + (set d | d in found && AtOrBelow(data, d))
      + (if data in storage.disk.trees then {data} else {});
    ok := x.Do(Effect, x.host.(holdings := x.host.holdings.(directories := directories, disk := storage.disk)));
    ok := ok && exchanged;
    forall d | d in h.holdings.directories && d !in x.host.holdings.directories ensures UnderOneOf(x.operation.footprint.trees, d) {
      assert AtOrBelow(data, d);
    }
  }

  lemma SameRun(before: set<string>, after: set<string>, account: string)
    requires before - {account} == after - {account} && account in before && account in after
    ensures before == after
  {
    assert before == (before - {account}) + {account} && after == (after - {account}) + {account};
  }

  /** The disk a return leaves: the data is the slot's tree, the reserved slot what the data was. */
  ghost function Returned(d: Exchange.Disk, s: Instance): Exchange.Disk
    requires SlotPath(s) in d.archives
  {
    Exchange.Exchanged(Exchange.Ensured(d, s.where.dataDirectory), SlotPath(s), s.where.dataDirectory, ReservedPath(s))
  }

  /** The slot holds the whole of what the data was. */
  predicate SnapshotTaken(before: Host, after: Host, s: Instance) {
    s.where.dataDirectory in before.holdings.disk.trees
    && Exchange.At(after.holdings.disk.archives, SlotPath(s), before.holdings.disk.trees[s.where.dataDirectory])
  }

  /**
   * snapshotService. Everything that could refuse reads only; the slot is written once and never
   * replaced; the service is put back exactly as it was found.
   */
  method SnapshotService(x: Executor, s: Instance) returns (r: Outcome)
    requires x.operation.manner.Copying? && s.where.account == x.operation.account
    requires x.operation.footprint == SnapshotFootprint(s)
    requires Confinable(x.text, s.where.account)
    modifies x`host, x`trace
    ensures !r.Held?
    ensures r.Refused? ==> x.host == old(x.host) && x.trace == old(x.trace)
    ensures old(!Placed(x.text, x.host, s.where.account) || SlotPath(s) in x.host.holdings.disk.archives) ==> r.Refused?
    ensures Archived(old(x.host), x.host, s.where.account)
    ensures x.host.holdings.directories == old(x.host).holdings.directories
    ensures x.host.holdings.disk.trees == old(x.host).holdings.disk.trees
    ensures OnlyWithin(SnapshotFootprint(s), old(x.host), x.host)
    ensures r.Changed? ==> SnapshotTaken(old(x.host), x.host, s)
    ensures r.Failed? ==> SlotPath(s) !in x.host.holdings.disk.archives || SnapshotTaken(old(x.host), x.host, s)
    ensures r.Changed? || s.where.account !in old(x.host).units.running ==> x.host.units.running == old(x.host).units.running
    ensures old(Quiet(x)) ==> Quiet(x)
    ensures x.reliable && old(CanBeArchived(x.text, x.host, s)) && SlotPath(s) !in old(x.host).holdings.disk.archives ==> r.Changed?
  {
    var port := RequirePlacedService(x, s.where.account);
    var unreadable := x.MayFail();
    if port.Err? || unreadable || s.where.dataDirectory !in x.host.holdings.directories
      || SlotPath(s) in x.host.holdings.disk.archives {
      return Refused;
    }
    ghost var before := x.host;
    var active := s.where.account in x.host.units.running;
    var ok := StopIfActive(x, s.where.account, active);
    if ok {
      ok := ArchiveServiceData(x, s.where.dataDirectory, SlotPath(s));
    }
    if ok {
      ok := RestartAndProve(x, s.where.account, active, port.value);
    }
    if ok && active {
      SameRun(before.units.running, x.host.units.running, s.where.account);
    }
    var unlisted := x.MayFail();
    return if ok && !unlisted then Changed else Failed;
  }

  /** discardSnapshot destroys exactly one archive, and an absent one is the state already held. */
  method DiscardSnapshot(x: Executor, s: Instance) returns (r: Outcome)
    requires x.operation.manner.Discarding? && x.operation.footprint == DiscardFootprint(s)
    modifies x`host, x`trace
    ensures r.Held? || r.Refused? ==> x.host == old(x.host) && x.trace == old(x.trace)
    ensures r.Held? ==> SlotPath(s) !in old(x.host).holdings.disk.archives
    ensures x.host == old(x.host)
      || x.host == old(x.host).(holdings := old(x.host).holdings.(disk := old(x.host).holdings.disk.(archives :=
           old(x.host).holdings.disk.archives - {SlotPath(s)})))
    ensures r.Changed? ==> SlotPath(s) !in x.host.holdings.disk.archives
    ensures old(Quiet(x)) ==> Quiet(x)
    ensures x.reliable ==> r.Held? || r.Changed?
  {
    var unreadable := x.MayFail();
    if unreadable {
      return Refused;
    }
    var disk := x.host.holdings.disk;
    if SlotPath(s) !in disk.archives {
      return Held;
    }
    var ok := x.Do(Effect, x.host.(holdings := x.host.holdings.(disk := disk.(archives := disk.archives - {SlotPath(s)}))));
    return if ok then Changed else Failed;
  }

  /** The return of an instance, and the two trees it may not lose. */
  function CallOf(d: Exchange.Disk, s: Instance): Exchange.Call
    requires SlotPath(s) in d.archives && s.where.dataDirectory in d.trees
  {
    Exchange.CallOn(d, SlotPath(s), s.where.dataDirectory, ReservedPath(s))
  }

  /** Both trees are still held, and where a return that failed may have left them. */
  ghost predicate ReturnFailed(before: Exchange.Disk, after: Exchange.Disk, s: Instance) {
    && SlotPath(s) in before.archives
    && (Exchange.At(after.archives, SlotPath(s), before.archives[SlotPath(s)])
        || Exchange.At(after.trees, s.where.dataDirectory, before.archives[SlotPath(s)]))
    && (s.where.dataDirectory in before.trees ==>
          Exchange.Preserved(after, CallOf(before, s)) && Exchange.Aftermath(before, after, CallOf(before, s)))
  }

  /** The data is what the slot held, and the reserved slot holds what the data was. */
  ghost predicate DataReturned(before: Host, after: Host, s: Instance) {
    && SlotPath(s) in before.holdings.disk.archives
    && after.holdings.disk == Returned(before.holdings.disk, s)
    && s.where.dataDirectory in after.holdings.directories
  }

  /**
   * restoreService. The data becomes what the slot holds and the reserved slot what the data was;
   * no ordinary slot moves, and whatever fails, both trees are still held.
   */
  method RestoreService(x: Executor, s: Instance) returns (r: Outcome)
    requires Coherent(x.text) && s.where.BearsData()
    requires x.operation.manner.Copying? && s.where.account == x.operation.account
    requires x.operation.footprint == RestoreFootprint(s)
    requires Confinable(x.text, s.where.account)
    modifies x`host, x`trace
    ensures !r.Held?
    ensures r.Refused? ==> x.host == old(x.host) && x.trace == old(x.trace)
    ensures old(!Placed(x.text, x.host, s.where.account) || SlotPath(s) !in x.host.holdings.disk.archives) ==> r.Refused?
    ensures Archived(old(x.host), x.host, s.where.account)
    ensures OnlyWithin(RestoreFootprint(s), old(x.host), x.host)
    ensures r.Changed? ==> DataReturned(old(x.host), x.host, s)
    ensures r.Failed? ==> ReturnFailed(old(x.host).holdings.disk, x.host.holdings.disk, s)
    ensures r.Changed? || s.where.account !in old(x.host).units.running ==> x.host.units.running == old(x.host).units.running
    ensures old(Quiet(x)) ==> Quiet(x)
    ensures x.reliable && old(CanRestart(x.text, x.host, s)) && SlotPath(s) in old(x.host).holdings.disk.archives ==> r.Changed?
  {
    var port := RequirePlacedService(x, s.where.account);
    var unreadable := x.MayFail();
    if port.Err? || unreadable || SlotPath(s) !in x.host.holdings.disk.archives {
      return Refused;
    }
    Exchange.SlotsAreApart(s.where.snapshotDirectory, s.slot, RESERVED_SLOT);
    ghost var before := x.host;
    var active := s.where.account in x.host.units.running;
    var ok := StopIfActive(x, s.where.account, active);
    if ok {
      ok := EnsureData(x, s);
    }
    if ok {
      ok := ExchangeServiceData(x, SlotPath(s), s.where.dataDirectory, ReservedPath(s));
    }
    if ok {
      ok := RestartAndProve(x, s.where.account, active, port.value);
    }
    if ok && active {
      SameRun(before.units.running, x.host.units.running, s.where.account);
    }
    var unlisted := x.MayFail();
    return if ok && !unlisted then Changed else Failed;
  }
}
