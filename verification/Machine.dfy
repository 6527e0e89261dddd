/**
 * The machine one Auxiliary acts on, behind the effects of its Executor interface.
 *
 * An effect may succeed, fail without effect, or fail after a part of its effect; on success
 * the whole of it has happened. Every instant an effect goes through is appended to `trace`,
 * so a statement about `trace` is a statement about every instant of a run.
 */
module Machine {
  import opened Wrappers
  import opened Placements
  import Exchange
  import Order

  datatype Confined = Confined(account: string, identifier: int)

  /** The user database, read both ways, and the accounts whose manager outlives a session. */
  datatype Users = Users(accounts: map<string, int>, holders: map<int, string>, lingering: set<string>)

  /** The sheets and the services, by the account they belong to. A manager starts what it
      generated at its last reload, never the sheet that has been written since. */
  datatype Units = Units(
    sheets: map<string, string>,
    generated: map<string, string>,
    running: set<string>,
    containers: map<string, string>,
    images: set<(string, string)>
  )

  /** What a removal leaves behind: directories, generated values by the file of their key, the
      keys and values a sheet reads back, and the trees of the data beside the archives of them. */
  datatype Holdings = Holdings(
    directories: set<string>,
    secrets: map<string, string>,
    environmentFiles: map<string, seq<(string, string)>>,
    disk: Exchange.Disk
  )

  /** The confinement: its table on disk, the identifiers the kernel refuses, the unit for the next boot. */
  datatype Bounds = Bounds(rules: Option<string>, loaded: set<int>, bootUnit: Option<string>, bootEnabled: bool)

  datatype Host = Host(users: Users, units: Units, holdings: Holdings, bounds: Bounds)

  /** The renderers and readers the flows use. What a flow needs of them is `Coherent`. */
  datatype Texts = Texts(
    profiles: seq<string>,        // the accounts of the confined profiles this product delivers
    isUser: string -> bool,       // the accounts of user services
    sheet: (Placement, int, string) -> string,
    durable: Placement -> seq<string>,
    imageOf: string -> string,
    portOf: string -> Option<int>,
    rules: seq<Confined> -> string,
    confines: string -> set<int>,
    unit: string
  )

  ghost predicate Coherent(text: Texts) {
    && (forall i, j :: 0 <= i < j < |text.profiles| ==> text.profiles[i] != text.profiles[j])
    && (forall i :: 0 <= i < |text.profiles| ==> !text.isUser(text.profiles[i]))
    && (forall c: seq<Confined> :: AllNamedConfinable(text, c) ==> text.confines(text.rules(c)) == Identifiers(c))
    && (forall w: Placement :: if w.BearsData() then w.dataDirectory in text.durable(w) else text.durable(w) == [])
  }

  /** Every account a table names is one this machine may confine. */
  ghost predicate AllNamedConfinable(text: Texts, c: seq<Confined>) {
    forall i :: 0 <= i < |c| ==> Confinable(text, c[i].account)
  }

  ghost predicate AllConfinable(text: Texts, members: set<string>) { forall a :: a in members ==> Confinable(text, a) }

  datatype Event = Effect | Fetching(account: string) | Asking(port: int)

  datatype Instant = Instant(event: Event, host: Host)

  /** The directories of data and the archive files an operation may touch at all. */
  datatype Footprint = Footprint(trees: set<string>, archives: set<string>)

  /** What an operation does to data and archives: it only adds to them, destroys one archive beside
      a service, or copies the data of a service it must hold still. */
  datatype Manner = Keeping | Discarding | Copying

  /** The operation an instant belongs to: the account it acts on, what it may do to data, the paths
      it may touch, and the machine it found. */
  datatype Operation = Operation(account: string, manner: Manner, footprint: Footprint, before: Host)

  /** Every instant so far, the latest outermost, from the machine there was before the first. */
  datatype Trace = Start(origin: Host) | Then(past: Trace, instant: Instant, operation: Operation)

  /** The machine a trace leads to. */
  function Present(trace: Trace): Host { if trace.Then? then trace.instant.host else trace.origin }

  /** The instants a trace went through after another. */
  ghost function Since(start: Trace, trace: Trace): set<Instant> {
    if trace == start || trace.Start? then {} else Since(start, trace.past) + {trace.instant}
  }

  lemma TwoInstants(start: Trace, trace: Trace)
    requires trace.Then? && trace.past.Then? && trace.past.past == start
    ensures Since(start, trace) <= {trace.past.instant, trace.instant}
  {
    assert Since(start, trace.past) <= {trace.past.instant};
  }

  lemma {:induction false} SinceJoins(start: Trace, mid: Trace, end: Trace)
    ensures Since(start, end) <= Since(start, mid) + Since(mid, end)
    decreases end
  {
    if end.Then? {
      SinceJoins(start, mid, end.past);
    }
  }

  function Identifiers(c: seq<Confined>): set<int> {
    set i | 0 <= i < |c| :: c[i].identifier
  }

  ghost predicate SortedByAccount(c: seq<Confined>) {
    forall i, j :: 0 <= i < j < |c| ==> Order.Less(c[i].account, c[j].account)
  }

  /** The rows name exactly the members, each beside the identifier this machine gave it. */
  ghost predicate Rows(c: seq<Confined>, members: set<string>, accounts: map<string, int>)
    requires members <= accounts.Keys
  {
    && (forall e :: e in c ==> e.account in members && e.identifier == accounts[e.account])
    && (forall a :: a in members ==> Confined(a, accounts[a]) in c)
  }

  lemma TableExists(members: set<string>, accounts: map<string, int>) returns (c: seq<Confined>)
    requires members <= accounts.Keys
    ensures SortedByAccount(c) && Rows(c, members, accounts)
  {
    var names := Order.Listed(members);
    c := seq(|names|, i requires 0 <= i < |names| => Confined(names[i], accounts[names[i]]));
    forall a | a in members ensures Confined(a, accounts[a]) in c {
      var i :| 0 <= i < |names| && names[i] == a;
      assert c[i] == Confined(a, accounts[a]);
    }
  }

  /** The one table that names a set of accounts: increasing by account. */
  ghost function Table(members: set<string>, accounts: map<string, int>): (c: seq<Confined>)
    requires members <= accounts.Keys
  {
    assert exists c :: SortedByAccount(c) && Rows(c, members, accounts) by {
      var c := TableExists(members, accounts);
    }
    var c :| SortedByAccount(c) && Rows(c, members, accounts);
    c
  }

  lemma TableHolds(members: set<string>, accounts: map<string, int>)
    requires members <= accounts.Keys
    ensures SortedByAccount(Table(members, accounts)) && Rows(Table(members, accounts), members, accounts)
    ensures Table(members, accounts) == [] <==> members == {}
  {
    var c := Table(members, accounts);
    assert c != [] ==> c[0] in c;
  }

  /** Two sorted lists of the same rows are one list: two readings of a machine render one table. */
  lemma TableIsUnique(c: seq<Confined>, members: set<string>, accounts: map<string, int>)
    requires members <= accounts.Keys
    requires SortedByAccount(c) && Rows(c, members, accounts)
    ensures c == Table(members, accounts)
  {
    var t := Table(members, accounts);
    TableHolds(members, accounts);
    NamesAreListed(c, members, accounts);
    NamesAreListed(t, members, accounts);
    var names := Order.Listed(members);
    forall i | 0 <= i < |names| ensures c[i] == t[i] {
      assert c[i] in c && t[i] in t;
    }
  }

  lemma NamesAreListed(c: seq<Confined>, members: set<string>, accounts: map<string, int>)
    requires members <= accounts.Keys
    requires SortedByAccount(c) && Rows(c, members, accounts)
    ensures |c| == |Order.Listed(members)|
    ensures forall i :: 0 <= i < |c| ==> c[i].account == Order.Listed(members)[i]
  {
    var names := seq(|c|, i requires 0 <= i < |c| => c[i].account);
    forall n ensures n in names <==> n in members {
      if n in names {
        var i :| 0 <= i < |names| && names[i] == n;
        assert c[i] in c;
      }
      if n in members {
        assert Confined(n, accounts[n]) in c;
        var i :| 0 <= i < |c| && c[i] == Confined(n, accounts[n]);
        assert names[i] == n;
      }
    }
    Order.SortedIsListed(names, members);
  }

  /** The confined accounts whose sheet this machine holds: the ones its table must name. */
  function ConfinedSheets(text: Texts, h: Host): set<string> {
    set account | account in h.units.sheets && Confinable(text, account)
  }

  /** The accounts of the two confined doors: the delivered profiles, and every user service. */
  predicate Confinable(text: Texts, account: string) {
    account in text.profiles || text.isUser(account)
  }

  function IdentifiersOf(members: set<string>, accounts: map<string, int>): set<int>
    requires members <= accounts.Keys
  {
    set account | account in members :: accounts[account]
  }

  lemma TableConfines(members: set<string>, accounts: map<string, int>)
    requires members <= accounts.Keys
    ensures Identifiers(Table(members, accounts)) == IdentifiersOf(members, accounts)
  {
    var c := Table(members, accounts);
    TableHolds(members, accounts);
    forall id ensures id in Identifiers(c) <==> id in IdentifiersOf(members, accounts) {
      if id in IdentifiersOf(members, accounts) {
        var account :| account in members && accounts[account] == id;
        assert Confined(account, id) in c;
        var i :| 0 <= i < |c| && c[i] == Confined(account, id);
        assert c[i].identifier == id;
      }
      if id in Identifiers(c) {
        var i :| 0 <= i < |c| && c[i].identifier == id;
        assert c[i] in c;
      }
    }
  }

  /** A running confined service has its sheet, its account, and that account in the kernel's table. */
  ghost predicate Confining(text: Texts, h: Host) {
    forall a :: a in h.units.running && Confinable(text, a) ==>
      a in h.units.sheets && a in h.users.accounts && h.users.accounts[a] in h.bounds.loaded
  }

  /** Nothing is in the kernel that no file accounts for, and no two accounts share an identifier. */
  ghost predicate Sound(h: Host) {
    && (h.bounds.rules.None? ==> h.bounds.loaded == {})
    && (forall a :: a in h.users.accounts ==> h.users.accounts[a] in h.users.holders && h.users.holders[h.users.accounts[a]] == a)
  }

  /** What must hold at every instant; a fetch moreover runs unrefused, with its own service down. */
  ghost predicate Safe(text: Texts, i: Instant) {
    && Confining(text, i.host) && Sound(i.host)
    && (i.event.Fetching? && Confinable(text, i.event.account) ==>
          && i.event.account !in i.host.units.running
          && i.event.account in i.host.users.accounts
          && i.host.users.accounts[i.event.account] !in i.host.bounds.loaded)
  }

  /** Everything an operation on one account may not touch. */
  ghost predicate OthersKept(before: Host, after: Host, account: string) {
    && after.units.sheets - {account} == before.units.sheets - {account}
    && after.units.generated - {account} == before.units.generated - {account}
    && after.units.running - {account} == before.units.running - {account}
    && after.units.containers - {account} == before.units.containers - {account}
    && after.users.accounts - {account} == before.users.accounts - {account}
    && (account in before.users.accounts ==> account in after.users.accounts && after.users.accounts[account] == before.users.accounts[account])
  }

  /** No generated value is ever taken away or replaced. */
  predicate KeepsValues(before: Host, after: Host) {
    forall p :: p in before.holdings.secrets ==>
      p in after.holdings.secrets && after.holdings.secrets[p] == before.holdings.secrets[p]
  }

  /** What no deployment and no removal ever takes away or replaces. */
  predicate Keeps(before: Host, after: Host) {
    && KeepsValues(before, after)
    && before.holdings.directories <= after.holdings.directories
    && (forall p :: p in before.holdings.disk.trees ==>
          Exchange.At(after.holdings.disk.trees, p, before.holdings.disk.trees[p]))
    && after.holdings.disk.archives == before.holdings.disk.archives
  }

  /** A directory, or one below it. */
  predicate AtOrBelow(root: string, directory: string) { directory == root || root + "/" <= directory }

  predicate UnderOneOf(roots: set<string>, directory: string) { exists r :: r in roots && AtOrBelow(r, directory) }

  /** Outside the paths of a footprint every tree and every archive stands as it stood, and no directory is gone. */
  ghost predicate OnlyWithin(footprint: Footprint, before: Host, after: Host) {
    && Exchange.SameBut(before.holdings.disk.trees, after.holdings.disk.trees, footprint.trees)
    && Exchange.SameBut(before.holdings.disk.archives, after.holdings.disk.archives, footprint.archives)
    && (forall d :: d in before.holdings.directories ==> d in after.holdings.directories || UnderOneOf(footprint.trees, d))
  }

  lemma OnlyWithinJoins(footprint: Footprint, before: Host, mid: Host, after: Host)
    requires OnlyWithin(footprint, before, mid) && OnlyWithin(footprint, mid, after)
    ensures OnlyWithin(footprint, before, after)
  {
  }

  lemma OnlyWithinMore(footprint: Footprint, wider: Footprint, before: Host, after: Host)
    requires OnlyWithin(footprint, before, after)
    requires footprint.trees <= wider.trees && footprint.archives <= wider.archives
    ensures OnlyWithin(wider, before, after)
  {
    forall d | UnderOneOf(footprint.trees, d) ensures UnderOneOf(wider.trees, d) {
      var r :| r in footprint.trees && AtOrBelow(r, d);
      assert r in wider.trees;
    }
  }

  /** A service an operation on another account leaves exactly as it stood. */
  predicate StandsAs(before: Host, after: Host, account: string) {
    && (account in after.units.running <==> account in before.units.running)
    && Found(after.units.sheets, account) == Found(before.units.sheets, account)
    && Found(after.units.generated, account) == Found(before.units.generated, account)
    && Found(after.units.containers, account) == Found(before.units.containers, account)
    && Found(after.users.accounts, account) == Found(before.users.accounts, account)
  }

  function Found<T>(m: map<string, T>, key: string): Option<T> { if key in m then Some(m[key]) else None }

  lemma OthersStandAsTheyDid(before: Host, after: Host, account: string, other: string)
    requires OthersKept(before, after, account) && other != account
    ensures StandsAs(before, after, other)
  {
    assert Found(after.units.sheets - {account}, other) == Found(before.units.sheets - {account}, other);
    assert Found(after.units.generated - {account}, other) == Found(before.units.generated - {account}, other);
    assert Found(after.units.containers - {account}, other) == Found(before.units.containers - {account}, other);
    assert Found(after.users.accounts - {account}, other) == Found(before.users.accounts - {account}, other);
    assert other in after.units.running - {account} <==> other in before.units.running - {account};
  }

  ghost predicate KeptBy(operation: Operation, h: Host) {
    && OthersKept(operation.before, h, operation.account)
    && OnlyWithin(operation.footprint, operation.before, h)
    && KeepsValues(operation.before, h)
    && (operation.manner.Keeping? ==> Keeps(operation.before, h))
  }

  ghost predicate Guarded(text: Texts, i: Instant, operation: Operation) {
    Safe(text, i) && KeptBy(operation, i.host)
  }

  /** From one instant to the next, data and archives move only while the service they are of is down. */
  ghost predicate AtRest(before: Host, after: Host, operation: Operation) {
    operation.manner.Copying? && after.holdings.disk != before.holdings.disk ==>
      operation.account !in before.units.running && operation.account !in after.units.running
  }

  /** Every instant on the way to this machine was safe, kept what the operation it belongs to does
      not own, and came after the one before it with the data at rest. */
  ghost predicate AllGuarded(text: Texts, trace: Trace, h: Host) {
    && Present(trace) == h
    && (trace.Then? ==>
          && AllGuarded(text, trace.past, Present(trace.past))
          && Guarded(text, trace.instant, trace.operation) && AtRest(Present(trace.past), h, trace.operation))
  }

  function Stopped(h: Host, account: string): Host {
    h.(units := h.units.(running := h.units.running - {account}, containers := h.units.containers - {account}))
  }

  function Started(text: Texts, h: Host, account: string): Host
    requires account in h.units.generated
  {
    h.(units := h.units.(running := h.units.running + {account},
                         containers := h.units.containers[account := text.imageOf(h.units.generated[account])]))
  }

  function Reloaded(h: Host, account: string): Host {
    h.(units := h.units.(generated :=
      if account in h.units.sheets then h.units.generated[account := h.units.sheets[account]]
      else h.units.generated - {account}))
  }

  function DataDirectories(text: Texts, where: Placement): set<string> {
    (set d | d in text.durable(where)) + {where.snapshotDirectory}
  }

  function SecretPath(where: Placement, key: string): string { where.SecretsDirectory() + "/" + key }

  function KeysOf(lines: seq<(string, string)>): seq<string> {
    seq(|lines|, i requires 0 <= i < |lines| => lines[i].0)
  }

  /** A value for every declared key, and an environment file naming exactly those keys. */
  predicate SecretsPresent(h: Host, where: Placement) {
    && (forall key :: key in where.secretKeys ==> SecretPath(where, key) in h.holdings.secrets)
    && where.EnvironmentFilePath() in h.holdings.environmentFiles
    && KeysOf(h.holdings.environmentFiles[where.EnvironmentFilePath()]) == where.secretKeys
  }

  /** There is always an identifier above every one that is taken. */
  method FreshIdentifier(taken: set<int>) returns (id: int)
    ensures id !in taken
    ensures forall t :: t in taken ==> t < id
  {
    id := 0;
    var left := taken;
    while left != {}
      invariant left <= taken
      invariant forall t :: t in taken ==> t in left || t < id
      decreases |left|
    {
      var t := AnyOf(left);
      left := left - {t};
      if t >= id {
        id := t + 1;
      }
    }
  }

  method AnyOf<T(==)>(s: set<T>) returns (t: T)
    requires s != {}
    ensures t in s
  {
    t :| t in s;
  }

  class Executor {
    const text: Texts
    const reliable: bool            // on a reliable machine every reading is made, and every effect whole
    var host: Host
    ghost var trace: Trace
    ghost var operation: Operation
    ghost var undoings: nat         // how many rollbacks this machine has seen attempted
    ghost var concluded: seq<(Host, Trace)>   // where each approved pair left the machine and its trace

    constructor (text: Texts, host: Host, reliable: bool)
      ensures this.text == text && this.reliable == reliable && this.host == host && trace == Start(host) && undoings == 0 && concluded == []
    {
      this.text, this.reliable := text, reliable;
      this.host := host;
      trace := Start(host);
      operation := Operation("", Keeping, Footprint({}, {}), host);
      undoings := 0;
      concluded := [];
    }

    /** A reading of the machine that does not come back. */
    method MayFail() returns (failed: bool)
      ensures reliable ==> !failed
    {
      failed := *;
      failed := failed && !reliable;
    }

    /** One effect with nothing between its two ends. */
    method Do(event: Event, after: Host) returns (ok: bool)
      modifies this`host, this`trace
      ensures host == old(host) || host == after
      ensures ok ==> host == after
      ensures trace == Then(old(trace), Instant(event, host), operation)
      ensures reliable ==> ok
    {
      var happened: bool := *;
      happened := happened || reliable;
      if happened {
        host := after;
      }
      trace := Then(trace, Instant(event, host), operation);
      ok := *;
      ok := (ok || reliable) && happened;
    }

    /** An account is created with an identifier no account of this machine holds. */
    method CreateProbeAccount(account: string) returns (ok: bool)
      requires account !in host.users.accounts
      modifies this`host, this`trace
      ensures host == old(host)
        || exists id :: id !in old(host).users.holders && id !in old(host).users.accounts.Values
             && host == old(host).(users := old(host).users.(accounts := old(host).users.accounts[account := id], holders := old(host).users.holders[id := account]))
      ensures ok ==> account in host.users.accounts
      ensures trace == Then(old(trace), Instant(Effect, host), operation)
      ensures reliable ==> ok
    {
      var id: int := *;
      if reliable {
        id := FreshIdentifier(host.users.accounts.Values + host.users.holders.Keys);
      }
      if id in host.users.accounts.Values || id in host.users.holders {
        trace := Then(trace, Instant(Effect, host), operation);
        return false; // no identifier could be allocated
      }
      ok := Do(Effect, host.(users := host.users.(accounts := host.users.accounts[account := id], holders := host.users.holders[id := account])));
    }

    /** Directories are created one by one, so a failure leaves some of them. */
    method EnsureServiceData(where: Placement) returns (ok: bool)
      modifies this`host, this`trace
      ensures host == old(host).(holdings := old(host).holdings.(directories := host.holdings.directories, disk := host.holdings.disk))
      ensures old(host).holdings.directories <= host.holdings.directories
                <= old(host).holdings.directories + DataDirectories(text, where)
      ensures host.holdings.disk == old(host).holdings.disk
        || host.holdings.disk == Exchange.Ensured(old(host).holdings.disk, where.dataDirectory)
      ensures ok ==> host.holdings.directories == old(host).holdings.directories + DataDirectories(text, where)
      ensures ok ==> host.holdings.disk == Exchange.Ensured(old(host).holdings.disk, where.dataDirectory)
      ensures trace == Then(old(trace), Instant(Effect, host), operation)
      ensures reliable ==> ok
    {
      var made: set<string> :| made <= DataDirectories(text, where);
      var whole: bool := *;
      whole := whole || reliable;
      if reliable {
        made := DataDirectories(text, where);
      }
      var disk := if whole then Exchange.Ensured(host.holdings.disk, where.dataDirectory) else host.holdings.disk;
      ok := Do(Effect, host.(holdings := host.holdings.(directories := host.holdings.directories + made, disk := disk)));
      ok := ok && whole && made == DataDirectories(text, where);
    }

    /** Generates what is missing, keeps every value there is, and rewrites the environment file last. */
    method EnsureServiceSecrets(where: Placement) returns (ok: bool)
      modifies this`host, this`trace
      ensures host == old(host).(holdings := old(host).holdings.(secrets := host.holdings.secrets, environmentFiles := host.holdings.environmentFiles))
      ensures forall p :: p in old(host).holdings.secrets ==> p in host.holdings.secrets && host.holdings.secrets[p] == old(host).holdings.secrets[p]
      ensures ok ==> SecretsPresent(host, where)
      ensures ok ==> forall line :: line in host.holdings.environmentFiles[where.EnvironmentFilePath()]
                       ==> SecretPath(where, line.0) in host.holdings.secrets && host.holdings.secrets[SecretPath(where, line.0)] == line.1
      ensures trace == Then(old(trace), Instant(Effect, host), operation)
      ensures reliable ==> ok
    {
      var lines: seq<(string, string)> := [];
      var held := host.holdings.secrets;
      ok := true;
      for n := 0 to |where.secretKeys|
        invariant reliable ==> ok
        invariant host == old(host) && trace == old(trace)
        invariant forall p :: p in host.holdings.secrets ==> p in held && held[p] == host.holdings.secrets[p]
        invariant ok ==> KeysOf(lines) == where.secretKeys[..n]
        invariant forall key :: ok && key in where.secretKeys[..n] ==> SecretPath(where, key) in held
        invariant forall line :: line in lines ==> SecretPath(where, line.0) in held && held[SecretPath(where, line.0)] == line.1
      {
        var key := where.secretKeys[n];
        var failed := MayFail();
        ok := ok && !failed;
        if ok {
          if SecretPath(where, key) !in held {
            var drawn: string := *;
            held := held[SecretPath(where, key) := drawn];
          }
          lines := lines + [(key, held[SecretPath(where, key)])];
          assert where.secretKeys[..n + 1] == where.secretKeys[..n] + [key];
        }
      }
      assert where.secretKeys[..|where.secretKeys|] == where.secretKeys;
      var files := host.holdings.environmentFiles;
      if ok {
        files := files[where.EnvironmentFilePath() := lines];
      }
      var done := Do(Effect, host.(holdings := host.holdings.(secrets := held, environmentFiles := files)));
      ok := ok && done;
    }

    /** A start that fails may leave a container without a service, or a service all the same. */
    method StartService(account: string) returns (ok: bool)
      modifies this`host, this`trace
      ensures account !in old(host).units.generated ==> !ok && host == old(host)
      ensures account in old(host).units.generated ==>
        || host == old(host) || host == Started(text, old(host), account)
        || host == old(host).(units := Started(text, old(host), account).units.(running := old(host).units.running))
      ensures ok ==> host == Started(text, old(host), account)
      ensures trace == Then(old(trace), Instant(Effect, host), operation)
      ensures reliable && account in old(host).units.generated ==> ok
    {
      if account !in host.units.generated {
        ok := Do(Effect, host);
        return false;
      }
      var whole: bool := *;
      whole := whole || reliable;
      var after := Started(text, host, account);
      ok := Do(Effect, if whole then after else after.(units := after.units.(running := host.units.running)));
      ok := ok && whole;
    }

    /** The file is replaced and then loaded: one effect, two instants. */
    method WriteEgressRules(content: string) returns (ok: bool)
      modifies this`host, this`trace
      ensures host == old(host)
        || host == old(host).(bounds := old(host).bounds.(rules := Some(content)))
        || host == old(host).(bounds := old(host).bounds.(rules := Some(content), loaded := text.confines(content)))
      ensures ok ==> host == old(host).(bounds := old(host).bounds.(rules := Some(content), loaded := text.confines(content)))
      ensures trace == Then(Then(old(trace), Instant(Effect, old(host)), operation), Instant(Effect, host), operation)
        || trace == Then(Then(old(trace), Instant(Effect, old(host).(bounds := old(host).bounds.(rules := Some(content)))), operation), Instant(Effect, host), operation)
      ensures reliable ==> ok
    {
      ok := Do(Effect, host.(bounds := host.bounds.(rules := Some(content))));
      if ok {
        ok := Do(Effect, host.(bounds := host.bounds.(loaded := text.confines(content))));
      } else {
        trace := Then(trace, Instant(Effect, host), operation);
      }
    }

    /** The kernel's table is deleted, and only then its file. */
    method RemoveEgressRules() returns (ok: bool)
      modifies this`host, this`trace
      ensures host == old(host)
        || host == old(host).(bounds := old(host).bounds.(loaded := {}))
        || host == old(host).(bounds := old(host).bounds.(loaded := {}, rules := None))
      ensures ok ==> host == old(host).(bounds := old(host).bounds.(loaded := {}, rules := None))
      ensures trace == Then(Then(old(trace), Instant(Effect, old(host)), operation), Instant(Effect, host), operation)
        || trace == Then(Then(old(trace), Instant(Effect, old(host).(bounds := old(host).bounds.(loaded := {}))), operation), Instant(Effect, host), operation)
      ensures reliable ==> ok
    {
      ok := Do(Effect, host.(bounds := host.bounds.(loaded := {})));
      if ok {
        ok := Do(Effect, host.(bounds := host.bounds.(rules := None)));
      } else {
        trace := Then(trace, Instant(Effect, host), operation);
      }
    }
  }
}
