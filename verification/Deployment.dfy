/** The deployment of a confined service, behind the private door and the user's. */
module Deployment {
  import opened Wrappers
  import opened Placements
  import opened Machine
  import opened Egress
  import Exchange

  /** Which of the two doors an operation came through: they differ in what "already held" reads. */
  datatype Door = Private | User

  datatype Instance = Instance(door: Door, where: Placement, localPort: int, originHost: string, slot: string)

  datatype Capabilities = Capabilities(accountPresent: bool, rootlessPodman: bool)

  /** How one flow ended: what it found already held, what it changed, what it refused with
      nothing touched, and what failed once it had begun to act. */
  datatype Outcome = Held | Changed | Refused | Failed

  function Desired(text: Texts, s: Instance): string { text.sheet(s.where, s.localPort, s.originHost) }

  predicate DataHeld(text: Texts, h: Host, s: Instance) {
    match s.door
    case Private => s.where.dataDirectory in h.holdings.directories
    case User => forall d :: d in text.durable(s.where) ==> d in h.holdings.directories
  }

  predicate SecretsHeld(h: Host, s: Instance) {
    s.door.Private? || !s.where.BearsSecrets() || SecretsPresent(h, s.where)
  }

  /** The approved state of a deployment, read from the machine alone. */
  ghost predicate DeploymentHeld(text: Texts, h: Host, s: Instance) {
    var account := s.where.account;
    && account in h.units.sheets && h.units.sheets[account] == Desired(text, s)
    && account in h.units.running
    && account in h.units.containers && h.units.containers[account] == s.where.image
    && DataHeld(text, h, s) && SecretsHeld(h, s)
    && account in h.users.accounts
    && ConfinementHeld(text, h, ConfinedSheets(text, h) + {account})
  }

  method DurableDataHeld(x: Executor, s: Instance) returns (r: Result<bool>)
    ensures r.Ok? ==> r.value == DataHeld(x.text, x.host, s)
    ensures x.reliable ==> r.Ok?
  {
    var directories := if s.door.Private? then [s.where.dataDirectory] else x.text.durable(s.where);
    for n := 0 to |directories|
      invariant forall d :: d in directories[..n] ==> d in x.host.holdings.directories
    {
      var unreadable := x.MayFail();
      if unreadable {
        return Err;
      }
      if directories[n] !in x.host.holdings.directories {
        assert directories[n] in directories;
        return Ok(false);
      }
    }
    assert directories[..|directories|] == directories;
    return Ok(true);
  }

  datatype View = View(held: bool, active: bool, confining: seq<Confined>, bounds: BoundsState)

  /** The read-only stretch of a deployment: any of its readings may fail, and none of them acts. */
  method ObserveDeployment(x: Executor, capabilities: Capabilities, s: Instance) returns (r: Result<View>)
    requires Coherent(x.text)
    requires Confinable(x.text, s.where.account)
    requires capabilities.accountPresent == (s.where.account in x.host.users.accounts)
    ensures r.Ok? ==> r.value.held == DeploymentHeld(x.text, x.host, s)
    ensures r.Ok? ==> r.value.active == (s.where.account in x.host.units.running)
    ensures r.Ok? ==> ConfinedSheets(x.text, x.host) <= x.host.users.accounts.Keys
    ensures r.Ok? && capabilities.accountPresent ==>
              r.value.confining == Table(ConfinedSheets(x.text, x.host) + {s.where.account}, x.host.users.accounts)
    ensures r.Ok? ==> r.value.bounds.rulesPresent == x.host.bounds.rules.Some? && r.value.bounds.unitPresent == x.host.bounds.bootUnit.Some?
    ensures x.reliable && ConfinedSheets(x.text, x.host) <= x.host.users.accounts.Keys ==> r.Ok?
  {
    var account := s.where.account;
    var unreadable := x.MayFail();
    if unreadable {
      return Err;
    }
    var present := account in x.host.units.sheets;
    var active := account in x.host.units.running;
    var image := if account in x.host.units.containers then Some(x.host.units.containers[account]) else None;
    var data := DurableDataHeld(x, s);
    if data.Err? {
      return Err;
    }
    var identifier: Option<int> := None;
    if capabilities.accountPresent {
      var joined := JoinedBy(x, account);
      if joined.Err? {
        return Err;
      }
      identifier := Some(joined.value.identifier);
    }
    var confining := ConfinementJoinedBy(x, account, identifier);
    if confining.Err? {
      return Err;
    }
    ghost var sheets := ConfinedSheets(x.text, x.host);
    var bounds := ReadEgressBounds(x, confining.value, if identifier.Some? then sheets + {account} else sheets);
    if bounds.Err? {
      return Err;
    }
    var held := present && x.host.units.sheets[account] == Desired(x.text, s) && active && image == Some(s.where.image)
      && data.value && SecretsHeld(x.host, s) && bounds.value.held;
    return Ok(View(held, active, confining.value, bounds.value));
  }

  /** Every instant so far guarded, and the machine fit to be left at this one. */
  ghost predicate Quiet(x: Executor)
    reads x
  {
    AllGuarded(x.text, x.trace, x.host) && Calm(x.text, x.host, x.operation)
  }

  /** Nothing of a preparation touches what confines: the services, the sheets and the table stand. */
  ghost predicate Prepared(h: Host, after: Host, operation: Operation) {
    var account := operation.account;
    && after == h.(users := after.users, holdings := after.holdings)
    && ((after.users.accounts == h.users.accounts && after.users.holders == h.users.holders)
        || exists id :: account !in h.users.accounts && id !in h.users.holders
             && after.users.accounts == h.users.accounts[account := id] && after.users.holders == h.users.holders[id := account])
    && Keeps(h, after) && OnlyWithin(operation.footprint, h, after)
  }

  /** A deployment makes its own data directory where there is none, and touches no other tree. */
  function DeployFootprint(s: Instance): Footprint {
    Footprint(if s.where.BearsData() then {s.where.dataDirectory} else {}, {})
  }

  lemma PreparedIsCalm(text: Texts, h: Host, after: Host, operation: Operation)
    requires Calm(text, h, operation) && Prepared(h, after, operation)
    ensures Guarded(text, Instant(Effect, after), operation) && Calm(text, after, operation)
  {
    assert after.users.accounts - {operation.account} == h.users.accounts - {operation.account};
    assert Sound(after);
  }

  method CreateAccount(x: Executor, account: string) returns (ok: bool)
    requires account == x.operation.account && account !in x.host.users.accounts
    modifies x`host, x`trace
    ensures Prepared(old(x.host), x.host, x.operation)
    ensures old(Quiet(x)) ==> Quiet(x)
    ensures ok ==> account in x.host.users.accounts
    ensures x.reliable ==> ok
  {
    ghost var h, op := x.host, x.operation;
    ok := x.CreateProbeAccount(account);
    if Calm(x.text, h, op) {
      PreparedIsCalm(x.text, h, x.host, op);
    }
  }

  /** A fresh account may still turn out unable to run rootless: the account stays, and no unit. */
  method EnableLinger(x: Executor, account: string) returns (ok: bool)
    modifies x`host, x`trace
    ensures Prepared(old(x.host), x.host, x.operation)
    ensures x.host.users.accounts == old(x.host).users.accounts && x.host.users.holders == old(x.host).users.holders
    ensures ok ==> account in x.host.users.lingering
    ensures old(Quiet(x)) ==> Quiet(x)
    ensures x.reliable ==> ok
  {
    ghost var h, op := x.host, x.operation;
    ok := x.Do(Effect, x.host.(users := x.host.users.(lingering := x.host.users.lingering + {account})));
    if Calm(x.text, h, op) {
      PreparedIsCalm(x.text, h, x.host, op);
    }
    var rootless: bool := *;
    ok := ok && (rootless || x.reliable);
  }

  method EnsureData(x: Executor, s: Instance) returns (ok: bool)
    requires Coherent(x.text) && s.where.BearsData() && s.where.dataDirectory in x.operation.footprint.trees
    modifies x`host, x`trace
    ensures Prepared(old(x.host), x.host, x.operation)
    ensures x.host == old(x.host).(holdings := old(x.host).holdings.(directories := x.host.holdings.directories, disk := x.host.holdings.disk))
    ensures x.host.holdings.disk == old(x.host).holdings.disk
      || x.host.holdings.disk == Exchange.Ensured(old(x.host).holdings.disk, s.where.dataDirectory)
    ensures ok ==> x.host.holdings.disk == Exchange.Ensured(old(x.host).holdings.disk, s.where.dataDirectory)
    ensures old(Quiet(x)) && (x.operation.manner.Copying? ==> x.operation.account !in x.host.units.running) ==> Quiet(x)
    ensures ok ==> DataHeld(x.text, x.host, s)
    ensures x.reliable ==> ok
  {
    ghost var h, op := x.host, x.operation;
    ok := x.EnsureServiceData(s.where);
    if Calm(x.text, h, op) {
      PreparedIsCalm(x.text, h, x.host, op);
    }
  }

  method EnsureSecrets(x: Executor, s: Instance) returns (ok: bool)
    modifies x`host, x`trace
    ensures Prepared(old(x.host), x.host, x.operation)
    ensures x.host.users == old(x.host).users
    ensures x.host.holdings.directories == old(x.host.holdings.directories)
    ensures old(Quiet(x)) ==> Quiet(x)
    ensures ok ==> SecretsHeld(x.host, s)
    ensures x.reliable ==> ok
  {
    ghost var h, op := x.host, x.operation;
    ok := x.EnsureServiceSecrets(s.where);
    if Calm(x.text, h, op) {
      PreparedIsCalm(x.text, h, x.host, op);
    }
  }

  lemma PreparedJoins(h: Host, mid: Host, after: Host, operation: Operation)
    requires Prepared(h, mid, operation) && Prepared(mid, after, operation)
    requires mid.users.accounts == after.users.accounts && mid.users.holders == after.users.holders
    ensures Prepared(h, after, operation)
  {
  }

  method EnsureAccount(x: Executor, account: string) returns (ok: bool)
    requires account == x.operation.account && account !in x.host.users.accounts
    modifies x`host, x`trace
    ensures Prepared(old(x.host), x.host, x.operation)
    ensures old(Quiet(x)) ==> Quiet(x)
    ensures ok ==> account in x.host.users.accounts && account in x.host.users.lingering
    ensures x.reliable ==> ok
  {
    ghost var h := x.host;
    ok := CreateAccount(x, account);
    if ok {
      ghost var created := x.host;
      ok := EnableLinger(x, account);
      PreparedJoins(h, created, x.host, x.operation);
    }
  }

  method EnsureHoldings(x: Executor, s: Instance) returns (ok: bool)
    requires Coherent(x.text) && (s.door.Private? ==> s.where.BearsData())
    requires s.where.BearsData() ==> s.where.dataDirectory in x.operation.footprint.trees
    requires x.operation.manner.Keeping?
    modifies x`host, x`trace
    ensures Prepared(old(x.host), x.host, x.operation)
    ensures x.host.users == old(x.host).users
    ensures old(Quiet(x)) ==> Quiet(x)
    ensures ok ==> DataHeld(x.text, x.host, s) && SecretsHeld(x.host, s)
    ensures x.reliable ==> ok
  {
    ghost var h := x.host;
    ok := true;
    if s.where.BearsData() {
      ok := EnsureData(x, s);
    }
    if ok && s.door.User? && s.where.BearsSecrets() {
      ghost var held := x.host;
      ok := EnsureSecrets(x, s);
      PreparedJoins(h, held, x.host, x.operation);
    }
  }

  /** The account, its directories and its generated values. */
  method PrepareService(x: Executor, capabilities: Capabilities, s: Instance) returns (ok: bool)
    requires Coherent(x.text) && (s.door.Private? ==> s.where.BearsData())
    requires s.where.account == x.operation.account
    requires capabilities.accountPresent == (s.where.account in x.host.users.accounts)
    requires s.where.BearsData() ==> s.where.dataDirectory in x.operation.footprint.trees
    requires x.operation.manner.Keeping?
    modifies x`host, x`trace
    ensures Prepared(old(x.host), x.host, x.operation)
    ensures old(Quiet(x)) ==> Quiet(x)
    ensures ok && s.where.account !in old(x.host).users.accounts ==> s.where.account in x.host.users.lingering
    ensures ok ==> s.where.account in x.host.users.accounts && DataHeld(x.text, x.host, s) && SecretsHeld(x.host, s)
    ensures x.reliable ==> ok
  {
    ghost var h := x.host;
    ok := true;
    if !capabilities.accountPresent {
      ok := EnsureAccount(x, s.where.account);
    }
    if ok {
      ghost var made := x.host;
      ok := EnsureHoldings(x, s);
      PreparedJoins(h, made, x.host, x.operation);
    }
  }

  // ---- The service stops, the account leaves the table, the image is fetched, the table is posed again.

  method StopService(x: Executor, account: string) returns (ok: bool)
    requires account == x.operation.account
    modifies x`host, x`trace
    ensures x.host == old(x.host) || x.host == Stopped(old(x.host), account)
    ensures ok ==> x.host == Stopped(old(x.host), account)
    ensures old(Quiet(x)) ==> Quiet(x)
    ensures x.trace == Then(old(x.trace), Instant(Effect, x.host), x.operation)
    ensures x.reliable ==> ok
  {
    ghost var h := x.host;
    ok := x.Do(Effect, Stopped(x.host, account));
    StoppedIsCalm(x.text, h, x.operation);
  }

  lemma StoppedIsCalm(text: Texts, h: Host, operation: Operation)
    ensures Calm(text, h, operation) ==> Calm(text, Stopped(h, operation.account), operation)
  {
    var after, account := Stopped(h, operation.account), operation.account;
    assert after.units.containers - {account} == h.units.containers - {account};
    assert after.units.running - {account} == h.units.running - {account};
  }

  /** Where the others' table is loaded, an account that left it may fetch: it is refused by no rule. */
  lemma FetchIsUnrefused(text: Texts, h: Host, others: set<string>, account: string)
    requires Sound(h) && others <= h.users.accounts.Keys && account in h.users.accounts && account !in others
    ensures h.users.accounts[account] !in Settled(text, h, others).bounds.loaded
  {
    if others != {} {
      forall o | o in others ensures h.users.accounts[o] != h.users.accounts[account] {
        assert h.users.holders[h.users.accounts[o]] == o;
      }
    }
  }

  predicate MayFetch(h: Host, account: string) {
    account !in h.units.running && account in h.users.accounts && h.users.accounts[account] !in h.bounds.loaded
  }

  method PullImage(x: Executor, account: string, image: string) returns (ok: bool)
    requires account == x.operation.account
    modifies x`host, x`trace
    ensures x.host == old(x.host).(units := old(x.host).units.(images := x.host.units.images))
    ensures ok ==> x.host.units.images == old(x.host).units.images + {(account, image)}
    ensures old(Quiet(x) && MayFetch(x.host, account)) ==> Quiet(x)
    ensures x.reliable ==> ok
  {
    ok := x.Do(Fetching(account), x.host.(units := x.host.units.(images := x.host.units.images + {(account, image)})));
  }

  /** What a refetch may move: this account's own service, its images, and the bounds. */
  ghost predicate Refetched(h: Host, after: Host, account: string) {
    && after == h.(units := after.units, bounds := after.bounds)
    && after.units.sheets == h.units.sheets && after.units.generated == h.units.generated
    && ((after.units.running == h.units.running && after.units.containers == h.units.containers)
        || (after.units.running == h.units.running - {account} && after.units.containers == h.units.containers - {account}))
  }

  method RefetchImage(x: Executor, s: Instance, view: View) returns (ok: bool)
    requires Coherent(x.text) && Confinable(x.text, s.where.account)
    requires s.where.account == x.operation.account && s.where.account in x.host.users.accounts
    requires view.active == (s.where.account in x.host.units.running)
    requires view.bounds.rulesPresent == x.host.bounds.rules.Some? && view.bounds.unitPresent == x.host.bounds.bootUnit.Some?
    requires ConfinedSheets(x.text, x.host) <= x.host.users.accounts.Keys
    requires view.confining == Table(ConfinedSheets(x.text, x.host) + {s.where.account}, x.host.users.accounts)
    modifies x`host, x`trace
    ensures Refetched(old(x.host), x.host, s.where.account)
    ensures old(Quiet(x)) ==> Quiet(x)
    ensures ok ==> ConfinementHeld(x.text, x.host, ConfinedSheets(x.text, x.host) + {s.where.account})
    ensures ok ==> Named(x.host, s.where.account) && s.where.account !in x.host.units.running
    ensures ok ==> x.host.bounds.bootEnabled && (s.where.account, s.where.image) in x.host.units.images
    ensures x.reliable ==> ok
  {
    var account := s.where.account;
    ghost var members := ConfinedSheets(x.text, x.host) + {account};
    ghost var others := ConfinedSheets(x.text, x.host) - {account};
    ok := true;
    if view.active {
      ok := StopService(x, account);
    }
    if ok {
      ok := FetchOutsideTable(x, s, view.bounds, others);
    }
    if ok {
      SheetsCover(x.text, x.host, members, x.operation);
      ok := PoseEgressBounds(x, view.confining, members);
    }
  }

  lemma SheetsCover(text: Texts, h: Host, members: set<string>, operation: Operation)
    requires members <= h.users.accounts.Keys
    requires forall a :: a in ConfinedSheets(text, h) && a in h.units.running ==> a in members
    ensures Calm(text, h, operation) ==> Ready(text, h, members, operation)
  {
  }

  method FetchOutsideTable(x: Executor, s: Instance, bounds: BoundsState, ghost others: set<string>) returns (ok: bool)
    requires Coherent(x.text)
    requires s.where.account == x.operation.account && s.where.account in x.host.users.accounts
    requires bounds.rulesPresent == x.host.bounds.rules.Some? && bounds.unitPresent == x.host.bounds.bootUnit.Some?
    requires others == ConfinedSheets(x.text, x.host) - {s.where.account}
    modifies x`host, x`trace
    ensures x.host == old(x.host).(units := old(x.host).units.(images := x.host.units.images), bounds := x.host.bounds)
    ensures old(Quiet(x)) && s.where.account !in old(x.host).units.running ==> Quiet(x)
    ensures ok ==> (s.where.account, s.where.image) in x.host.units.images
    ensures x.reliable && old(ConfinedSheets(x.text, x.host) <= x.host.users.accounts.Keys) ==> ok
  {
    var account := s.where.account;
    ghost var h := x.host;
    ok := LeaveTable(x, s, bounds, others);
    if ok {
      if Sound(h) {
        FetchIsUnrefused(x.text, h, others, account);
      }
      ok := PullImage(x, account, s.where.image);
    }
  }

  method LeaveTable(x: Executor, s: Instance, bounds: BoundsState, ghost others: set<string>) returns (ok: bool)
    requires Coherent(x.text)
    requires bounds.rulesPresent == x.host.bounds.rules.Some? && bounds.unitPresent == x.host.bounds.bootUnit.Some?
    requires others == ConfinedSheets(x.text, x.host) - {s.where.account}
    modifies x`host, x`trace
    ensures BoundsOnly(old(x.host), x.host)
    ensures old(Quiet(x)) && s.where.account !in old(x.host).units.running ==> Quiet(x)
    ensures ok ==> others <= x.host.users.accounts.Keys && x.host == Settled(x.text, old(x.host), others)
    ensures x.reliable && old(ConfinedSheets(x.text, x.host) <= x.host.users.accounts.Keys) ==> ok
  {
    var fetching := ConfinementLeftBy(x, s.where.account);
    if fetching.Err? {
      return false;
    }
    if s.where.account !in x.host.units.running {
      SheetsCover(x.text, x.host, others, x.operation);
    }
    ok := SettleEgressBounds(x, bounds, fetching.value, others);
  }

  // ---- The sheet is written, the units reloaded, the service started and proven to answer.

  ghost predicate Published(h: Host, after: Host, account: string) {
    && after == h.(units := after.units)
    && after.units.images == h.units.images
    && after.units.sheets - {account} == h.units.sheets - {account}
    && after.units.generated - {account} == h.units.generated - {account}
    && after.units.running - {account} == h.units.running - {account}
    && after.units.containers - {account} == h.units.containers - {account}
  }

  /** The kernel's table names this account. */
  predicate Named(h: Host, account: string) {
    account in h.users.accounts && h.users.accounts[account] in h.bounds.loaded
  }

  /** A request that changes nothing this machine holds, and may still fail. */
  method ProbeAnswers(x: Executor, port: int) returns (ok: bool)
    modifies x`host, x`trace
    ensures x.host == old(x.host) && x.trace == Then(old(x.trace), Instant(Asking(port), x.host), x.operation)
    ensures old(Quiet(x)) ==> Quiet(x)
    ensures x.reliable ==> ok
  {
    ok := x.Do(Asking(port), x.host);
  }

  method ReloadUserUnits(x: Executor, account: string) returns (ok: bool)
    requires account == x.operation.account
    modifies x`host, x`trace
    ensures Published(old(x.host), x.host, account) && x.host.units.sheets == old(x.host).units.sheets
    ensures x.host.units.running == old(x.host).units.running && x.host.units.containers == old(x.host).units.containers
    ensures ok ==> x.host == Reloaded(old(x.host), account)
    ensures old(Quiet(x)) ==> Quiet(x)
    ensures x.trace == Then(old(x.trace), Instant(Effect, x.host), x.operation)
    ensures x.host == old(x.host) || x.host == Reloaded(old(x.host), account)
    ensures x.reliable ==> ok
  {
    ok := x.Do(Effect, Reloaded(x.host, account));
  }

  method WriteSheet(x: Executor, account: string, sheet: string) returns (ok: bool)
    requires account == x.operation.account
    modifies x`host, x`trace
    ensures Published(old(x.host), x.host, account)
    ensures ok ==> x.host.units == old(x.host).units.(sheets := old(x.host).units.sheets[account := sheet])
    ensures old(Quiet(x)) ==> Quiet(x)
    ensures x.trace == Then(old(x.trace), Instant(Effect, x.host), x.operation)
    ensures x.host == old(x.host) || x.host.units == old(x.host).units.(sheets := old(x.host).units.sheets[account := sheet])
    ensures x.reliable ==> ok
  {
    ok := x.Do(Effect, x.host.(units := x.host.units.(sheets := x.host.units.sheets[account := sheet])));
  }

  method StartService(x: Executor, account: string) returns (ok: bool)
    requires account == x.operation.account
    modifies x`host, x`trace
    ensures Published(old(x.host), x.host, account)
    ensures x.host.units.sheets == old(x.host).units.sheets && x.host.units.generated == old(x.host).units.generated
    ensures ok ==> account in old(x.host).units.generated && x.host == Started(x.text, old(x.host), account)
    ensures old(Quiet(x) && account in x.host.units.sheets && Named(x.host, account)) ==> Quiet(x)
    ensures x.trace == Then(old(x.trace), Instant(Effect, x.host), x.operation)
    ensures x.reliable && account in old(x.host).units.generated ==> ok
  {
    ghost var h := x.host;
    ok := x.StartService(account);
    assert x.host.units.containers - {account} == h.units.containers - {account};
  }

  /** One instant of a publication: nothing is generated but the sheet written before it, nothing
      runs but what was generated before it, and nothing is asked but of a service that runs. */
  ghost predicate PublishedInOrder(h: Host, i: Instant, account: string, sheet: string) {
    var units := i.host.units;
    && (units.sheets == h.units.sheets || units.sheets == h.units.sheets[account := sheet])
    && (units.generated == h.units.generated || Found(units.sheets, account) == Found(units.generated, account) == Some(sheet))
    && ((units.running == h.units.running && units.containers == h.units.containers) || Found(units.generated, account) == Some(sheet))
    && (i.event.Asking? ==> account in units.running && Found(units.generated, account) == Some(sheet))
  }

  method WriteAndReload(x: Executor, account: string, sheet: string) returns (ok: bool)
    requires account == x.operation.account
    modifies x`host, x`trace
    ensures Published(old(x.host), x.host, account)
    ensures x.host.units.running == old(x.host).units.running && x.host.units.containers == old(x.host).units.containers
    ensures ok ==> x.host.units.sheets == old(x.host).units.sheets[account := sheet] && Found(x.host.units.generated, account) == Some(sheet)
    ensures old(Quiet(x)) ==> Quiet(x)
    ensures forall i :: i in Since(old(x.trace), x.trace) ==> PublishedInOrder(old(x.host), i, account, sheet)
    ensures x.reliable ==> ok
  {
    ghost var start := x.trace;
    ok := WriteSheet(x, account, sheet);
    if ok {
      ok := ReloadUserUnits(x, account);
      TwoInstants(start, x.trace);
    }
  }

  method PublishService(x: Executor, s: Instance) returns (ok: bool)
    requires s.where.account == x.operation.account
    modifies x`host, x`trace
    ensures Published(old(x.host), x.host, s.where.account)
    ensures old(Quiet(x) && Named(x.host, s.where.account)) ==> Quiet(x)
    ensures ok ==> s.where.account in x.host.units.sheets && x.host.units.sheets[s.where.account] == Desired(x.text, s)
    ensures ok ==> s.where.account in x.host.units.running
    ensures ok ==> s.where.account in x.host.units.containers
    ensures ok ==> x.host.units.containers[s.where.account] == x.text.imageOf(Desired(x.text, s))
    ensures ok ==> x.trace.Then? && x.trace.instant.event == Asking(s.localPort)
    ensures forall i :: i in Since(old(x.trace), x.trace) ==> PublishedInOrder(old(x.host), i, s.where.account, Desired(x.text, s))
    ensures x.reliable ==> ok
  {
    ghost var h, start, sheet := x.host, x.trace, Desired(x.text, s);
    ok := WriteAndReload(x, s.where.account, Desired(x.text, s));
    if ok {
      ok := StartService(x, s.where.account);
      assert forall i :: i in Since(start, x.trace) ==> PublishedInOrder(h, i, s.where.account, sheet);
    }
    if ok {
      ok := ProbeAnswers(x, s.localPort);
    }
  }

  ghost predicate Aside(h: Host, after: Host, operation: Operation) {
    OthersKept(h, after, operation.account) && Keeps(h, after) && OnlyWithin(operation.footprint, h, after)
  }

  lemma PublishedHolds(text: Texts, h: Host, after: Host, account: string)
    requires Published(h, after, account)
    requires ConfinementHeld(text, h, ConfinedSheets(text, h) + {account})
    ensures ConfinementHeld(text, after, ConfinedSheets(text, after) + {account})
  {
    forall a ensures a in ConfinedSheets(text, after) + {account} <==> a in ConfinedSheets(text, h) + {account} {
      if a != account {
        assert a in after.units.sheets <==> a in (after.units.sheets - {account});
        assert a in h.units.sheets <==> a in (h.units.sheets - {account});
      }
    }
    assert ConfinedSheets(text, after) + {account} == ConfinedSheets(text, h) + {account};
  }

  /** The confinement this deployment joins, read again where the account has just been created. */
  method Rejoin(x: Executor, capabilities: Capabilities, account: string, view: View) returns (r: Result<View>)
    requires Coherent(x.text) && account in x.host.users.accounts
    requires ConfinedSheets(x.text, x.host) <= x.host.users.accounts.Keys
    requires capabilities.accountPresent ==>
               view.confining == Table(ConfinedSheets(x.text, x.host) + {account}, x.host.users.accounts)
    ensures r.Ok? ==> r.value == view.(confining := r.value.confining)
    ensures r.Ok? ==> r.value.confining == Table(ConfinedSheets(x.text, x.host) + {account}, x.host.users.accounts)
    ensures x.reliable ==> r.Ok?
  {
    if capabilities.accountPresent {
      return Ok(view);
    }
    var identifier := JoinedBy(x, account);
    if identifier.Err? {
      return Err;
    }
    var confining := ConfinementJoinedBy(x, account, Some(identifier.value.identifier));
    if confining.Err? {
      return Err;
    }
    return Ok(view.(confining := confining.value));
  }

  method Act(x: Executor, capabilities: Capabilities, s: Instance, view: View) returns (ok: bool)
    requires Coherent(x.text) && Confinable(x.text, s.where.account)
    requires s.door.Private? ==> s.where.BearsData()
    requires x.text.imageOf(Desired(x.text, s)) == s.where.image
    requires s.where.account == x.operation.account
    requires capabilities.accountPresent == (s.where.account in x.host.users.accounts)
    requires view.active == (s.where.account in x.host.units.running)
    requires view.bounds.rulesPresent == x.host.bounds.rules.Some? && view.bounds.unitPresent == x.host.bounds.bootUnit.Some?
    requires ConfinedSheets(x.text, x.host) <= x.host.users.accounts.Keys
    requires capabilities.accountPresent ==>
               view.confining == Table(ConfinedSheets(x.text, x.host) + {s.where.account}, x.host.users.accounts)
    requires x.operation.footprint == DeployFootprint(s)
    requires x.operation.manner.Keeping?
    modifies x`host, x`trace
    ensures Aside(old(x.host), x.host, x.operation)
    ensures old(Quiet(x)) ==> Quiet(x)
    ensures ok ==> DeploymentHeld(x.text, x.host, s) && Arrived(x, s)
    ensures ok && s.where.account !in old(x.host).users.accounts ==> s.where.account in x.host.users.lingering
    ensures x.reliable ==> ok
  {
    ghost var h := x.host;
    var prepared := PrepareAndRejoin(x, capabilities, s, view);
    ok := prepared.Ok?;
    if ok {
      ghost var mid := x.host;
      ok := RefetchAndPublish(x, s, prepared.value);
      AsideJoins(h, mid, x.host, x.operation);
    }
  }

  lemma PreparedIsAside(h: Host, after: Host, operation: Operation)
    requires Prepared(h, after, operation)
    ensures Aside(h, after, operation)
  {
    assert after.users.accounts - {operation.account} == h.users.accounts - {operation.account};
  }

  method PrepareAndRejoin(x: Executor, capabilities: Capabilities, s: Instance, view: View) returns (r: Result<View>)
    requires Coherent(x.text)
    requires s.door.Private? ==> s.where.BearsData()
    requires s.where.account == x.operation.account
    requires capabilities.accountPresent == (s.where.account in x.host.users.accounts)
    requires ConfinedSheets(x.text, x.host) <= x.host.users.accounts.Keys
    requires capabilities.accountPresent ==>
               view.confining == Table(ConfinedSheets(x.text, x.host) + {s.where.account}, x.host.users.accounts)
    requires x.operation.footprint == DeployFootprint(s)
    requires x.operation.manner.Keeping?
    modifies x`host, x`trace
    ensures Aside(old(x.host), x.host, x.operation)
    ensures x.host == old(x.host).(users := x.host.users, holdings := x.host.holdings)
    ensures old(Quiet(x)) ==> Quiet(x)
    ensures r.Ok? && s.where.account !in old(x.host).users.accounts ==> s.where.account in x.host.users.lingering
    ensures r.Ok? ==> r.value == view.(confining := r.value.confining)
    ensures r.Ok? ==> s.where.account in x.host.users.accounts && DataHeld(x.text, x.host, s) && SecretsHeld(x.host, s)
    ensures r.Ok? ==> ConfinedSheets(x.text, x.host) <= x.host.users.accounts.Keys
    ensures r.Ok? ==> r.value.confining == Table(ConfinedSheets(x.text, x.host) + {s.where.account}, x.host.users.accounts)
    ensures x.reliable ==> r.Ok?
  {
    ghost var h := x.host;
    var ok := PrepareService(x, capabilities, s);
    PreparedIsAside(h, x.host, x.operation);
    if !ok {
      return Err;
    }
    r := Rejoin(x, capabilities, s.where.account, view);
  }

  /** What a deployment that acted leaves beyond what it would recognise as already held. */
  ghost predicate Arrived(x: Executor, s: Instance)
    reads x
  {
    && Named(x.host, s.where.account) && x.host.bounds.bootEnabled
    && (s.where.account, s.where.image) in x.host.units.images
    && x.trace.Then? && x.trace.instant.event == Asking(s.localPort)
  }

  lemma AsideJoins(h: Host, mid: Host, after: Host, operation: Operation)
    requires Aside(h, mid, operation) && Aside(mid, after, operation)
    ensures Aside(h, after, operation)
  {
    OnlyWithinJoins(operation.footprint, h, mid, after);
  }

  lemma RefetchingIsAside(h: Host, after: Host, operation: Operation)
    requires Refetched(h, after, operation.account)
    ensures Aside(h, after, operation) && after == h.(units := after.units, bounds := after.bounds)
  {
  }

  lemma PublishingIsAside(h: Host, fetched: Host, after: Host, operation: Operation)
    requires Aside(h, fetched, operation) && fetched == h.(units := fetched.units, bounds := fetched.bounds)
    requires Published(fetched, after, operation.account)
    ensures Aside(h, after, operation) && after == h.(units := after.units, bounds := after.bounds)
  {
  }

  method RefetchAndPublish(x: Executor, s: Instance, view: View) returns (ok: bool)
    requires Coherent(x.text) && Confinable(x.text, s.where.account)
    requires x.text.imageOf(Desired(x.text, s)) == s.where.image
    requires s.where.account == x.operation.account && s.where.account in x.host.users.accounts
    requires view.active == (s.where.account in x.host.units.running)
    requires view.bounds.rulesPresent == x.host.bounds.rules.Some? && view.bounds.unitPresent == x.host.bounds.bootUnit.Some?
    requires ConfinedSheets(x.text, x.host) <= x.host.users.accounts.Keys
    requires view.confining == Table(ConfinedSheets(x.text, x.host) + {s.where.account}, x.host.users.accounts)
    modifies x`host, x`trace
    ensures Aside(old(x.host), x.host, x.operation)
    ensures x.host == old(x.host).(units := x.host.units, bounds := x.host.bounds)
    ensures old(Quiet(x)) ==> Quiet(x)
    ensures ok && DataHeld(x.text, x.host, s) && SecretsHeld(x.host, s) ==> DeploymentHeld(x.text, x.host, s)
    ensures ok ==> Arrived(x, s)
    ensures x.reliable ==> ok
  {
    ghost var h := x.host;
    ok := RefetchImage(x, s, view);
    RefetchingIsAside(h, x.host, x.operation);
    if ok {
      ghost var fetched := x.host;
      ok := PublishService(x, s);
      PublishingIsAside(h, fetched, x.host, x.operation);
      if ok {
        PublishedHolds(x.text, fetched, x.host, s.where.account);
      }
    }
  }

  /**
   * deployPrivateService and deployUserService: the same effects in the same order behind the
   * two doors, which differ in what "already held" reads and in the generated values.
   */
  method Deploy(x: Executor, capabilities: Capabilities, s: Instance) returns (r: Outcome)
    requires Coherent(x.text) && Confinable(x.text, s.where.account)
    requires s.door.Private? ==> s.where.BearsData()
    requires x.text.imageOf(Desired(x.text, s)) == s.where.image
    requires s.where.account == x.operation.account
    requires capabilities.accountPresent == (s.where.account in x.host.users.accounts)
    requires x.operation.footprint == DeployFootprint(s)
    requires x.operation.manner.Keeping?
    modifies x`host, x`trace
    ensures r.Held? || r.Refused? ==> x.host == old(x.host) && x.trace == old(x.trace)
    ensures r.Held? ==> old(DeploymentHeld(x.text, x.host, s))
    ensures old(DeploymentHeld(x.text, x.host, s)) ==> r.Held? || r.Refused?
    ensures r.Changed? ==> DeploymentHeld(x.text, x.host, s) && Arrived(x, s)
    ensures r.Changed? && s.where.account !in old(x.host).users.accounts ==> s.where.account in x.host.users.lingering
    ensures Aside(old(x.host), x.host, x.operation)
    ensures old(Quiet(x)) ==> Quiet(x)
    ensures x.reliable && old(ConfinedSheets(x.text, x.host) <= x.host.users.accounts.Keys) ==> r.Held? || r.Changed?
  {
    var observed := ObserveDeployment(x, capabilities, s);
    if observed.Err? {
      return Refused;
    }
    if observed.value.held {
      return Held;
    }
    var ok := Act(x, capabilities, s, observed.value);
    return if ok then Changed else Failed;
  }
}
