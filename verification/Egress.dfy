/**
 * The confinement of a machine's service accounts: who belongs in the one table, whether the
 * machine already holds it, and the effects that pose it and take it away.
 */
module Egress {
  import opened Wrappers
  import opened Placements
  import opened Machine
  import Order

  datatype BoundsState = BoundsState(rulesPresent: bool, unitPresent: bool, held: bool)

  /** Reading one confined account beside its identifier fails where the account is gone. */
  method JoinedBy(x: Executor, account: string) returns (r: Result<Confined>)
    ensures r.Ok? ==> account in x.host.users.accounts && r.value == Confined(account, x.host.users.accounts[account])
    ensures x.reliable && account in x.host.users.accounts ==> r.Ok?
  {
    var failed := x.MayFail();
    if failed || account !in x.host.users.accounts {
      return Err;
    }
    return Ok(Confined(account, x.host.users.accounts[account]));
  }

  /** The user services a sheet is held for, in whatever order the directory gives them. */
  method ManagedUserServices(x: Executor) returns (r: Result<seq<string>>)
    ensures r.Ok? ==> forall i, j :: 0 <= i < j < |r.value| ==> r.value[i] != r.value[j]
    ensures r.Ok? ==> forall a :: a in r.value <==> a in x.host.units.sheets && x.text.isUser(a)
    ensures x.reliable ==> r.Ok?
  {
    var failed := x.MayFail();
    if failed {
      return Err;
    }
    var left := set a | a in x.host.units.sheets && x.text.isUser(a);
    var listed := [];
    while left != {}
      invariant forall i, j :: 0 <= i < j < |listed| ==> listed[i] != listed[j]
      invariant forall a :: a in x.host.units.sheets && x.text.isUser(a) <==> a in listed || a in left
      invariant forall a :: a in listed ==> a !in left
      decreases |left|
    {
      var a :| a in left;
      listed := listed + [a];
      left := left - {a};
    }
    return Ok(listed);
  }

  ghost predicate Distinct(c: seq<Confined>) {
    forall i, j :: 0 <= i < j < |c| ==> c[i].account != c[j].account
  }

  method SortByAccount(c: seq<Confined>) returns (sorted: seq<Confined>)
    requires Distinct(c)
    ensures SortedByAccount(sorted)
    ensures forall e :: e in sorted <==> e in c
  {
    sorted := [];
    for n := 0 to |c|
      invariant SortedByAccount(sorted)
      invariant forall e :: e in sorted <==> e in c[..n]
    {
      var k := 0;
      while k < |sorted| && Order.Less(sorted[k].account, c[n].account)
        invariant 0 <= k <= |sorted|
        invariant forall i :: 0 <= i < k ==> Order.Less(sorted[i].account, c[n].account)
      {
        k := k + 1;
      }
      forall i | 0 <= i < |sorted| ensures sorted[i].account != c[n].account {
        assert sorted[i] in c[..n];
      }
      InsertedIsSorted(sorted, k, c[n]);
      sorted := sorted[..k] + [c[n]] + sorted[k..];
      assert c[..n + 1] == c[..n] + [c[n]];
    }
    assert c[..|c|] == c;
  }

  lemma InsertedIsSorted(sorted: seq<Confined>, k: nat, e: Confined)
    requires SortedByAccount(sorted) && k <= |sorted|
    requires forall i :: 0 <= i < k ==> Order.Less(sorted[i].account, e.account)
    requires k < |sorted| ==> !Order.Less(sorted[k].account, e.account) && sorted[k].account != e.account
    ensures SortedByAccount(sorted[..k] + [e] + sorted[k..])
  {
    if k < |sorted| {
      Order.Total(sorted[k].account, e.account);
      forall j | k < j < |sorted| ensures Order.Less(e.account, sorted[j].account) {
        Order.Transitive(e.account, sorted[k].account, sorted[j].account);
      }
    }
  }

  method ConfinedAccounts(x: Executor) returns (r: Result<seq<Confined>>)
    requires Coherent(x.text)
    ensures r.Ok? ==> ConfinedSheets(x.text, x.host) <= x.host.users.accounts.Keys
    ensures r.Ok? ==> r.value == Table(ConfinedSheets(x.text, x.host), x.host.users.accounts)
    ensures x.reliable && ConfinedSheets(x.text, x.host) <= x.host.users.accounts.Keys ==> r.Ok?
  {
    var confined: seq<Confined> := [];
    ghost var named: set<string> := {};
    for n := 0 to |x.text.profiles|
      invariant forall a :: a in named <==> a in x.text.profiles[..n] && a in x.host.units.sheets
      invariant named <= x.host.users.accounts.Keys
      invariant Distinct(confined) && Rows(confined, named, x.host.users.accounts)
    {
      var unreadable := x.MayFail();
      if unreadable {
        return Err;
      }
      if x.text.profiles[n] in x.host.units.sheets {
        var joined := JoinedBy(x, x.text.profiles[n]);
        if joined.Err? {
          return Err;
        }
        AppendedRows(confined, named, x.host.users.accounts, x.text.profiles[n]);
        confined := confined + [joined.value];
        named := named + {x.text.profiles[n]};
      }
    }
    assert x.text.profiles[..|x.text.profiles|] == x.text.profiles;
    var users := ManagedUserServices(x);
    if users.Err? {
      return Err;
    }
    ghost var profiles := named;
    for n := 0 to |users.value|
      invariant forall a :: a in named <==> a in profiles || a in users.value[..n]
      invariant named <= x.host.users.accounts.Keys
      invariant Distinct(confined) && Rows(confined, named, x.host.users.accounts)
    {
      var joined := JoinedBy(x, users.value[n]);
      if joined.Err? {
        return Err;
      }
      assert users.value[n] in users.value;
      AppendedRows(confined, named, x.host.users.accounts, users.value[n]);
      confined := confined + [joined.value];
      named := named + {users.value[n]};
    }
    assert users.value[..|users.value|] == users.value;
    assert named == ConfinedSheets(x.text, x.host);
    var sorted := SortByAccount(confined);
    TableIsUnique(sorted, named, x.host.users.accounts);
    return Ok(sorted);
  }

  /** The confinement this machine will hold once the account is part of it. */
  method ConfinementJoinedBy(x: Executor, account: string, identifier: Option<int>) returns (r: Result<seq<Confined>>)
    requires Coherent(x.text)
    requires identifier.Some? ==> account in x.host.users.accounts && identifier.value == x.host.users.accounts[account]
    ensures r.Ok? ==> ConfinedSheets(x.text, x.host) <= x.host.users.accounts.Keys
    ensures r.Ok? && identifier.Some? ==> r.value == Table(ConfinedSheets(x.text, x.host) + {account}, x.host.users.accounts)
    ensures r.Ok? && identifier.None? ==> r.value == Table(ConfinedSheets(x.text, x.host), x.host.users.accounts)
    ensures x.reliable && ConfinedSheets(x.text, x.host) <= x.host.users.accounts.Keys ==> r.Ok?
  {
    r := ConfinedAccounts(x);
    if r.Err? || identifier.None? {
      return;
    }
    ghost var members := ConfinedSheets(x.text, x.host);
    TableHolds(members, x.host.users.accounts);
    for n := 0 to |r.value|
      invariant forall i :: 0 <= i < n ==> r.value[i].account != account
    {
      if r.value[n].account == account {
        assert r.value[n] in r.value;
        assert members + {account} == members;
        return;
      }
    }
    SortedIsDistinct(r.value);
    NotNamed(r.value, members, x.host.users.accounts, account);
    AppendedRows(r.value, members, x.host.users.accounts, account);
    var confined := SortByAccount(r.value + [Confined(account, identifier.value)]);
    TableIsUnique(confined, members + {account}, x.host.users.accounts);
    return Ok(confined);
  }

  lemma AppendedRows(c: seq<Confined>, members: set<string>, accounts: map<string, int>, account: string)
    requires members <= accounts.Keys && account in accounts && account !in members
    requires Distinct(c) && Rows(c, members, accounts)
    ensures Distinct(c + [Confined(account, accounts[account])])
    ensures Rows(c + [Confined(account, accounts[account])], members + {account}, accounts)
  {
    forall i | 0 <= i < |c| ensures c[i].account in members {
      assert c[i] in c;
    }
  }

  lemma SortedIsDistinct(c: seq<Confined>)
    requires SortedByAccount(c)
    ensures Distinct(c)
  {
    forall i, j | 0 <= i < j < |c| ensures c[i].account != c[j].account {
      Order.Irreflexive(c[i].account);
    }
  }

  lemma NotNamed(c: seq<Confined>, members: set<string>, accounts: map<string, int>, account: string)
    requires members <= accounts.Keys && Rows(c, members, accounts)
    requires forall i :: 0 <= i < |c| ==> c[i].account != account
    ensures account !in members
  {
    forall a | a in members ensures a != account {
      assert Confined(a, accounts[a]) in c;
    }
  }

  /** The confinement this machine will hold once the account has left it. */
  method ConfinementLeftBy(x: Executor, account: string) returns (r: Result<seq<Confined>>)
    requires Coherent(x.text)
    ensures r.Ok? ==> ConfinedSheets(x.text, x.host) <= x.host.users.accounts.Keys
    ensures r.Ok? ==> r.value == Table(ConfinedSheets(x.text, x.host) - {account}, x.host.users.accounts)
    ensures x.reliable && ConfinedSheets(x.text, x.host) <= x.host.users.accounts.Keys ==> r.Ok?
  {
    r := ConfinedAccounts(x);
    if r.Err? {
      return;
    }
    ghost var members := ConfinedSheets(x.text, x.host);
    TableHolds(members, x.host.users.accounts);
    var remaining: seq<Confined> := [];
    for n := 0 to |r.value|
      invariant SortedByAccount(remaining)
      invariant forall e :: e in remaining <==> e in r.value[..n] && e.account != account
    {
      assert r.value[..n + 1] == r.value[..n] + [r.value[n]];
      forall i | 0 <= i < |remaining| ensures Order.Less(remaining[i].account, r.value[n].account) {
        assert remaining[i] in r.value[..n];
      }
      if r.value[n].account != account {
        remaining := remaining + [r.value[n]];
      }
    }
    assert r.value[..|r.value|] == r.value;
    TableIsUnique(remaining, members - {account}, x.host.users.accounts);
    return Ok(remaining);
  }

  /** The confinement a machine holds exactly when it holds the one that names these members. */
  ghost predicate ConfinementHeld(text: Texts, h: Host, members: set<string>) {
    && members <= h.users.accounts.Keys
    && if members == {} then h.bounds.rules == None && h.bounds.bootUnit == None
       else h.bounds.rules == Some(text.rules(Table(members, h.users.accounts))) && h.bounds.bootUnit == Some(text.unit)
  }

  method ReadEgressBounds(x: Executor, desired: seq<Confined>, ghost members: set<string>) returns (r: Result<BoundsState>)
    requires members <= x.host.users.accounts.Keys && desired == Table(members, x.host.users.accounts)
    ensures r.Ok? ==> r.value.rulesPresent == x.host.bounds.rules.Some?
    ensures r.Ok? ==> r.value.unitPresent == x.host.bounds.bootUnit.Some?
    ensures r.Ok? ==> r.value.held == ConfinementHeld(x.text, x.host, members)
    ensures x.reliable ==> r.Ok?
  {
    var unreadable := x.MayFail();
    if unreadable {
      return Err;
    }
    var rules, unit := x.host.bounds.rules, x.host.bounds.bootUnit;
    TableHolds(members, x.host.users.accounts);
    if |desired| == 0 {
      return Ok(BoundsState(rules.Some?, unit.Some?, rules.None? && unit.None?));
    }
    return Ok(BoundsState(rules.Some?, unit.Some?,
                          rules == Some(x.text.rules(desired)) && unit == Some(x.text.unit)));
  }

  ghost predicate BoundsOnly(before: Host, after: Host) {
    after == before.(bounds := after.bounds)
  }

  /** A table of these members refuses every confined service that runs. */
  ghost predicate Covers(text: Texts, h: Host, members: set<string>) {
    members <= h.users.accounts.Keys && forall a :: a in h.units.running && Confinable(text, a) ==> a in members
  }

  /** The machine once it has been brought to the confinement of these members. */
  ghost function Settled(text: Texts, h: Host, members: set<string>): Host
    requires members <= h.users.accounts.Keys
  {
    h.(bounds :=
      if members == {} then
        Bounds(None, if h.bounds.rules.Some? then {} else h.bounds.loaded, None, h.bounds.bootEnabled && h.bounds.bootUnit.None?)
      else
        Bounds(Some(text.rules(Table(members, h.users.accounts))), IdentifiersOf(members, h.users.accounts), Some(text.unit), true))
  }

  /** A machine an operation may leave behind at any instant. */
  ghost predicate Calm(text: Texts, h: Host, operation: Operation) {
    Confining(text, h) && Sound(h) && KeptBy(operation, h)
  }

  /** What a change of confinement needs to be safe at every one of its instants. */
  ghost predicate Ready(text: Texts, h: Host, members: set<string>, operation: Operation) {
    Calm(text, h, operation) && Covers(text, h, members)
  }

  /** The bounds may move anywhere between the old table and the one of the members. */
  lemma MovedIsGuarded(text: Texts, h: Host, moved: Host, members: set<string>, operation: Operation)
    requires Ready(text, h, members, operation) && BoundsOnly(h, moved)
    requires moved.bounds.loaded == h.bounds.loaded || moved.bounds.loaded == IdentifiersOf(members, h.users.accounts)
    requires moved.bounds.rules.None? ==> moved.bounds.loaded == {}
    ensures Guarded(text, Instant(Effect, moved), operation) && Ready(text, moved, members, operation)
  {
    forall a | a in moved.units.running && Confinable(text, a) ensures a in moved.users.accounts && moved.users.accounts[a] in moved.bounds.loaded {
      assert a in members;
    }
  }

  lemma TableNamesConfinable(text: Texts, members: set<string>, accounts: map<string, int>)
    requires members <= accounts.Keys && AllConfinable(text, members)
    ensures AllNamedConfinable(text, Table(members, accounts))
  {
    var c := Table(members, accounts);
    TableHolds(members, accounts);
    forall i | 0 <= i < |c| ensures Confinable(text, c[i].account) {
      assert c[i] in c;
    }
  }

  predicate SameUnit(h: Host, moved: Host) {
    moved.bounds.bootUnit == h.bounds.bootUnit && moved.bounds.bootEnabled == h.bounds.bootEnabled
  }

  /** One instant of a posing: the unit is as it was found, or the kernel already refuses these identifiers. */
  predicate RulesBeforeUnit(h: Host, i: Instant, identifiers: set<int>) {
    SameUnit(h, i.host) || i.host.bounds.loaded == identifiers
  }

  /** One instant of a removal: the kernel's table stands, or no unit is left to pose it at boot. */
  predicate UnitBeforeRules(h: Host, i: Instant) {
    i.host.bounds.loaded == h.bounds.loaded || (i.host.bounds.bootUnit.None? && !i.host.bounds.bootEnabled)
      || (h.bounds.bootUnit.None? && i.host.bounds.bootUnit.None?)
  }

  method LoadRules(x: Executor, confined: seq<Confined>, ghost members: set<string>) returns (ok: bool)
    requires Coherent(x.text) && AllConfinable(x.text, members)
    requires members <= x.host.users.accounts.Keys && confined == Table(members, x.host.users.accounts)
    modifies x`host, x`trace
    ensures BoundsOnly(old(x.host), x.host)
    ensures old(AllGuarded(x.text, x.trace, x.host) && Ready(x.text, x.host, members, x.operation)) ==>
              AllGuarded(x.text, x.trace, x.host) && Ready(x.text, x.host, members, x.operation)
    ensures ok ==> x.host == old(x.host).(bounds := old(x.host).bounds.(rules := Some(x.text.rules(confined)), loaded := IdentifiersOf(members, x.host.users.accounts)))
    ensures forall i :: i in Since(old(x.trace), x.trace) ==> SameUnit(old(x.host), i.host)
    ensures x.reliable ==> ok
  {
    ghost var h, start := x.host, x.trace;
    TableConfines(members, h.users.accounts);
    TableNamesConfinable(x.text, members, h.users.accounts);
    ok := x.WriteEgressRules(x.text.rules(confined));
    TwoInstants(start, x.trace);
    if Ready(x.text, h, members, x.operation) {
      MovedIsGuarded(x.text, h, h, members, x.operation);
      MovedIsGuarded(x.text, h, h.(bounds := h.bounds.(rules := Some(x.text.rules(confined)))), members, x.operation);
      MovedIsGuarded(x.text, h, x.host, members, x.operation);
    }
  }

  method DropRules(x: Executor) returns (ok: bool)
    modifies x`host, x`trace
    ensures BoundsOnly(old(x.host), x.host)
    ensures old(AllGuarded(x.text, x.trace, x.host) && Ready(x.text, x.host, {}, x.operation)) ==>
              AllGuarded(x.text, x.trace, x.host) && Ready(x.text, x.host, {}, x.operation)
    ensures ok ==> x.host == old(x.host).(bounds := old(x.host).bounds.(rules := None, loaded := {}))
    ensures forall i :: i in Since(old(x.trace), x.trace) ==> SameUnit(old(x.host), i.host)
    ensures x.reliable ==> ok
  {
    ghost var h, start := x.host, x.trace;
    ok := x.RemoveEgressRules();
    TwoInstants(start, x.trace);
    if Ready(x.text, h, {}, x.operation) {
      MovedIsGuarded(x.text, h, h, {}, x.operation);
      MovedIsGuarded(x.text, h, h.(bounds := h.bounds.(loaded := {})), {}, x.operation);
      MovedIsGuarded(x.text, h, x.host, {}, x.operation);
    }
  }

  /** The unit that poses the table at boot moves without the table moving. */
  method MoveUnit(x: Executor, unit: Option<string>, enabled: bool, ghost members: set<string>) returns (ok: bool)
    modifies x`host, x`trace
    ensures BoundsOnly(old(x.host), x.host) && x.host.bounds.rules == old(x.host.bounds.rules) && x.host.bounds.loaded == old(x.host.bounds.loaded)
    ensures old(AllGuarded(x.text, x.trace, x.host) && Ready(x.text, x.host, members, x.operation)) ==>
              AllGuarded(x.text, x.trace, x.host) && Ready(x.text, x.host, members, x.operation)
    ensures ok ==> x.host == old(x.host).(bounds := old(x.host).bounds.(bootUnit := unit, bootEnabled := enabled))
    ensures x.trace == Then(old(x.trace), Instant(Effect, x.host), x.operation)
    ensures x.reliable ==> ok
  {
    ghost var h := x.host;
    ok := x.Do(Effect, x.host.(bounds := x.host.bounds.(bootUnit := unit, bootEnabled := enabled)));
    if Ready(x.text, h, members, x.operation) {
      MovedIsGuarded(x.text, h, x.host, members, x.operation);
    }
  }

  /** The unit is disabled while its file is still there, and only then removed. */
  method DropUnit(x: Executor) returns (ok: bool)
    modifies x`host, x`trace
    ensures BoundsOnly(old(x.host), x.host) && x.host.bounds.rules == old(x.host.bounds.rules) && x.host.bounds.loaded == old(x.host.bounds.loaded)
    ensures old(AllGuarded(x.text, x.trace, x.host) && Ready(x.text, x.host, {}, x.operation)) ==>
              AllGuarded(x.text, x.trace, x.host) && Ready(x.text, x.host, {}, x.operation)
    ensures ok ==> x.host == old(x.host).(bounds := old(x.host).bounds.(bootUnit := None, bootEnabled := false))
    ensures forall i :: i in Since(old(x.trace), x.trace) ==> i.host.bounds.loaded == old(x.host).bounds.loaded
    ensures x.reliable ==> ok
  {
    ghost var start := x.trace;
    ok := MoveUnit(x, x.host.bounds.bootUnit, false, {});
    if ok {
      ok := MoveUnit(x, None, false, {});
      TwoInstants(start, x.trace);
    }
  }

  method PoseEgressBounds(x: Executor, confined: seq<Confined>, ghost members: set<string>) returns (ok: bool)
    requires Coherent(x.text) && AllConfinable(x.text, members)
    requires members <= x.host.users.accounts.Keys && members != {} && confined == Table(members, x.host.users.accounts)
    modifies x`host, x`trace
    ensures BoundsOnly(old(x.host), x.host)
    ensures old(AllGuarded(x.text, x.trace, x.host) && Ready(x.text, x.host, members, x.operation)) ==>
              AllGuarded(x.text, x.trace, x.host) && Ready(x.text, x.host, members, x.operation)
    ensures ok ==> x.host == Settled(x.text, old(x.host), members)
    ensures forall i :: i in Since(old(x.trace), x.trace) ==>
              RulesBeforeUnit(old(x.host), i, IdentifiersOf(members, old(x.host).users.accounts))
    ensures x.reliable ==> ok
  {
    ghost var h, start, identifiers := x.host, x.trace, IdentifiersOf(members, x.host.users.accounts);
    ok := LoadRules(x, confined, members);
    if ok {
      ok := MoveUnit(x, Some(x.text.unit), x.host.bounds.bootEnabled, members);
      assert forall i :: i in Since(start, x.trace) ==> RulesBeforeUnit(h, i, identifiers);
    }
    if ok {
      ok := MoveUnit(x, x.host.bounds.bootUnit, true, members);
    }
  }

  method RemoveEgressBounds(x: Executor, state: BoundsState) returns (ok: bool)
    requires state.rulesPresent == x.host.bounds.rules.Some? && state.unitPresent == x.host.bounds.bootUnit.Some?
    modifies x`host, x`trace
    ensures BoundsOnly(old(x.host), x.host)
    ensures old(AllGuarded(x.text, x.trace, x.host) && Ready(x.text, x.host, {}, x.operation)) ==>
              AllGuarded(x.text, x.trace, x.host) && Ready(x.text, x.host, {}, x.operation)
    ensures ok ==> x.host == Settled(x.text, old(x.host), {})
    ensures forall i :: i in Since(old(x.trace), x.trace) ==> UnitBeforeRules(old(x.host), i)
    ensures x.reliable ==> ok
  {
    ghost var start := x.trace;
    ok := true;
    if state.unitPresent {
      ok := DropUnit(x);
    }
    ghost var mid := x.trace;
    if ok && state.rulesPresent {
      ok := DropRules(x);
    }
    SinceJoins(start, mid, x.trace);
  }

  method SettleEgressBounds(x: Executor, state: BoundsState, desired: seq<Confined>, ghost members: set<string>) returns (ok: bool)
    requires Coherent(x.text) && AllConfinable(x.text, members)
    requires state.rulesPresent == x.host.bounds.rules.Some? && state.unitPresent == x.host.bounds.bootUnit.Some?
    requires members <= x.host.users.accounts.Keys && desired == Table(members, x.host.users.accounts)
    modifies x`host, x`trace
    ensures BoundsOnly(old(x.host), x.host)
    ensures old(AllGuarded(x.text, x.trace, x.host) && Ready(x.text, x.host, members, x.operation)) ==>
              AllGuarded(x.text, x.trace, x.host) && Ready(x.text, x.host, members, x.operation)
    ensures ok ==> x.host == Settled(x.text, old(x.host), members)
    ensures x.reliable ==> ok
  {
    TableHolds(members, x.host.users.accounts);
    if |desired| == 0 {
      ok := RemoveEgressBounds(x, state);
    } else {
      ok := PoseEgressBounds(x, desired, members);
    }
  }
}
