/** The removal of a confined service: what runs is taken away, and everything the user owns stays. */
module Removal {
  import opened Wrappers
  import opened Placements
  import opened Machine
  import opened Egress
  import opened Deployment

  /** What a removal finds already done: no sheet, no service, no container, and the others' table. */
  ghost predicate RemovalHeld(text: Texts, h: Host, account: string) {
    && account !in h.units.sheets && account !in h.units.running && account !in h.units.containers
    && ConfinementHeld(text, h, ConfinedSheets(text, h) - {account})
  }

  datatype Found = Found(held: bool, present: bool, active: bool, remaining: seq<Confined>, bounds: BoundsState)

  method ObserveRemoval(x: Executor, account: string) returns (r: Result<Found>)
    requires Coherent(x.text)
    ensures r.Ok? ==> r.value.held == RemovalHeld(x.text, x.host, account)
    ensures r.Ok? ==> r.value.present == (account in x.host.units.sheets)
    ensures r.Ok? ==> r.value.active == (account in x.host.units.running)
    ensures r.Ok? ==> ConfinedSheets(x.text, x.host) <= x.host.users.accounts.Keys
    ensures r.Ok? ==> r.value.remaining == Table(ConfinedSheets(x.text, x.host) - {account}, x.host.users.accounts)
    ensures r.Ok? ==> r.value.bounds.rulesPresent == x.host.bounds.rules.Some?
                      && r.value.bounds.unitPresent == x.host.bounds.bootUnit.Some?
    ensures x.reliable && ConfinedSheets(x.text, x.host) <= x.host.users.accounts.Keys ==> r.Ok?
  {
    var unreadable := x.MayFail();
    if unreadable {
      return Err;
    }
    var present := account in x.host.units.sheets;
    var active := account in x.host.units.running;
    var contained := account in x.host.units.containers;
    var remaining := ConfinementLeftBy(x, account);
    if remaining.Err? {
      return Err;
    }
    var bounds := ReadEgressBounds(x, remaining.value, ConfinedSheets(x.text, x.host) - {account});
    if bounds.Err? {
      return Err;
    }
    return Ok(Found(!present && !active && !contained && bounds.value.held, present, active, remaining.value, bounds.value));
  }

  method DropSheet(x: Executor, account: string) returns (ok: bool)
    requires account == x.operation.account
    modifies x`host, x`trace
    ensures Published(old(x.host), x.host, account)
    ensures x.host.units == old(x.host).units.(sheets := x.host.units.sheets)
    ensures ok ==> account !in x.host.units.sheets
    ensures x.trace == Then(old(x.trace), Instant(Effect, x.host), x.operation)
    ensures old(Quiet(x)) && account !in old(x.host).units.running ==> Quiet(x)
    ensures x.reliable ==> ok
  {
    ok := x.Do(Effect, x.host.(units := x.host.units.(sheets := x.host.units.sheets - {account})));
  }

  method RemoveSheet(x: Executor, account: string) returns (ok: bool)
    requires account == x.operation.account
    modifies x`host, x`trace
    ensures Published(old(x.host), x.host, account)
    ensures x.host.units.running == old(x.host).units.running && x.host.units.containers == old(x.host).units.containers
    ensures ok ==> account !in x.host.units.sheets && account !in x.host.units.generated
    ensures old(Quiet(x)) && account !in old(x.host).units.running ==> Quiet(x)
    ensures forall i :: i in Since(old(x.trace), x.trace) ==>
              i.host.units.images == old(x.host).units.images && i.host.units.running == old(x.host).units.running && i.host.bounds == old(x.host).bounds
    ensures x.reliable ==> ok
  {
    ghost var start := x.trace;
    ok := DropSheet(x, account);
    if ok {
      ok := ReloadUserUnits(x, account);
      TwoInstants(start, x.trace);
    }
  }

  method RemoveImage(x: Executor, account: string, image: string) returns (ok: bool)
    modifies x`host, x`trace
    ensures x.host == old(x.host).(units := old(x.host).units.(images := x.host.units.images))
    ensures ok ==> x.host.units.images == old(x.host).units.images - {(account, image)}
    ensures old(Quiet(x)) ==> Quiet(x)
    ensures x.trace == Then(old(x.trace), Instant(Effect, x.host), x.operation)
    ensures x.reliable ==> ok
  {
    ok := x.Do(Effect, x.host.(units := x.host.units.(images := x.host.units.images - {(account, image)})));
  }

  /** One instant of a dismantling: a sheet goes once its service is down, the image once the sheet is gone. */
  predicate DismantledInOrder(h: Host, i: Instant, account: string) {
    var units := i.host.units;
    && (units.sheets == h.units.sheets || account !in units.running)
    && (units.images == h.units.images || (account !in units.running && account !in units.sheets))
    && i.host.bounds == h.bounds
  }

  /** The service, and then its sheet. */
  method TakeDown(x: Executor, account: string, view: Found) returns (ok: bool)
    requires account == x.operation.account
    requires view.present == (account in x.host.units.sheets) && view.active == (account in x.host.units.running)
    modifies x`host, x`trace
    ensures Published(old(x.host), x.host, account)
    ensures old(Quiet(x)) ==> Quiet(x)
    ensures ok ==> account !in x.host.units.sheets && account !in x.host.units.running
    ensures ok && account in old(x.host).units.running ==> account !in x.host.units.containers
    ensures account !in old(x.host).units.running ==> x.host.units.containers == old(x.host).units.containers
    ensures forall i :: i in Since(old(x.trace), x.trace) ==> DismantledInOrder(old(x.host), i, account)
    ensures x.reliable ==> ok
  {
    ghost var start := x.trace;
    ok := true;
    if view.active {
      ok := StopService(x, account);
    }
    ghost var mid := x.trace;
    if ok && view.present {
      ok := RemoveSheet(x, account);
    }
    SinceJoins(start, mid, x.trace);
  }

  lemma TakenDownIsAside(h: Host, down: Host, after: Host, operation: Operation)
    requires Published(h, down, operation.account) && after == down.(units := down.units.(images := after.units.images))
    ensures Aside(h, after, operation)
  {
  }

  /** Everything that runs goes, in this order; the account leaves the table once nothing runs. */
  method Dismantle(x: Executor, s: Instance, view: Found) returns (ok: bool)
    requires s.where.account == x.operation.account
    requires view.present == (s.where.account in x.host.units.sheets)
    requires view.active == (s.where.account in x.host.units.running)
    modifies x`host, x`trace
    ensures x.host == old(x.host).(units := x.host.units)
    ensures Aside(old(x.host), x.host, x.operation)
    ensures old(Quiet(x)) ==> Quiet(x)
    ensures ok ==> s.where.account !in x.host.units.sheets && s.where.account !in x.host.units.running
    ensures ok ==> (s.where.account, s.where.image) !in x.host.units.images
    ensures ok && s.where.account in old(x.host).units.running ==> s.where.account !in x.host.units.containers
    ensures s.where.account !in old(x.host).units.running ==> x.host.units.containers == old(x.host).units.containers
    ensures forall i :: i in Since(old(x.trace), x.trace) ==> DismantledInOrder(old(x.host), i, s.where.account)
    ensures x.reliable ==> ok
  {
    ghost var h := x.host;
    ok := TakeDown(x, s.where.account, view);
    ghost var down := x.host;
    if ok {
      ok := RemoveImage(x, s.where.account, s.where.image);
    }
    TakenDownIsAside(h, down, x.host, x.operation);
  }

  lemma OthersStay(text: Texts, h: Host, after: Host, account: string)
    requires OthersKept(h, after, account)
    ensures ConfinedSheets(text, after) - {account} == ConfinedSheets(text, h) - {account}
  {
    forall a | a != account ensures a in after.units.sheets <==> a in h.units.sheets {
      assert a in after.units.sheets <==> a in after.units.sheets - {account};
      assert a in h.units.sheets <==> a in h.units.sheets - {account};
    }
  }

  /** No container of this account stands without its service. */
  predicate NoOrphan(h: Host, account: string) {
    account in h.units.containers ==> account in h.units.running
  }

  /**
   * removePrivateService and removeUserService. A removal that finds nothing to take away acts
   * on nothing; one that acted is recognised as held afterwards exactly when no container without
   * a service was left behind, since a container goes only with the service that is stopped.
   */
  method Remove(x: Executor, s: Instance) returns (r: Outcome)
    requires Coherent(x.text) && Confinable(x.text, s.where.account)
    requires s.where.account == x.operation.account
    modifies x`host, x`trace
    ensures r.Held? || r.Refused? ==> x.host == old(x.host) && x.trace == old(x.trace)
    ensures r.Held? ==> old(RemovalHeld(x.text, x.host, s.where.account))
    ensures old(RemovalHeld(x.text, x.host, s.where.account)) ==> r.Held? || r.Refused?
    ensures r.Changed? ==> Removed(x.text, x.host, s.where.account) && (s.where.account, s.where.image) !in x.host.units.images
    ensures r.Changed? ==> (RemovalHeld(x.text, x.host, s.where.account) <==> old(NoOrphan(x.host, s.where.account)))
    ensures Aside(old(x.host), x.host, x.operation)
    ensures x.host.holdings == old(x.host).holdings && x.host.users == old(x.host).users
    ensures old(Quiet(x)) ==> Quiet(x)
    ensures x.reliable && old(ConfinedSheets(x.text, x.host) <= x.host.users.accounts.Keys) ==> r.Held? || r.Changed?
  {
    var observed := ObserveRemoval(x, s.where.account);
    if observed.Err? {
      return Refused;
    }
    var view := observed.value;
    if view.held {
      return Held;
    }
    ghost var h, members := x.host, ConfinedSheets(x.text, x.host) - {s.where.account};
    var ok := Dismantle(x, s, view);
    if ok {
      OthersStay(x.text, h, x.host, s.where.account);
      SheetsCover(x.text, x.host, members, x.operation);
      ok := SettleEgressBounds(x, view.bounds, view.remaining, members);
    }
    return if ok then Changed else Failed;
  }

  /** The sheet is absent, nothing runs, and the rules file is exactly that of the others, or absent. */
  ghost predicate Removed(text: Texts, h: Host, account: string) {
    && account !in h.units.sheets && account !in h.units.running
    && ConfinementHeld(text, h, ConfinedSheets(text, h) - {account})
  }
}
