/** What the operations on some user services leave of every other one. */
module Isolation {
  import opened Placements
  import opened Machine
  import opened Deployment
  import opened Archives
  import opened Apply
  import opened UserServices
  import MachineTexts
  import Exchange

  /** A request that acts on the user service of one slug. */
  ghost predicate ActsOn(q: Request, slug: string) { Places(q.s.where, slug) && (q.Archiving() ==> q.s.where.BearsData()) }

  /** Every pair acts on a user service that is not this one. */
  ghost predicate NeverOn(pairs: seq<Pair>, slug: string, reserved: set<string>) {
    forall p :: p in pairs ==> exists other :: other != slug && MachineTexts.Slug(other, reserved) && ActsOn(p.0, other) && ActsOn(p.1, other)
  }

  lemma BelowTheHome(slug: string, below: string, suffix: string)
    requires "/" <= below
    ensures Home(slug) + "/" <= (Home(slug) + below) + suffix
  {
    var path := (Home(slug) + below) + suffix;
    assert path[..|Home(slug)|] == Home(slug) && path[|Home(slug)|] == '/';
  }

  /** Everything a request may touch is under the home of the service it acts on. */
  lemma FootprintIsAtHome(q: Request, slug: string, path: string)
    requires ActsOn(q, slug)
    requires path in FootprintOf(q).trees || path in FootprintOf(q).archives
    ensures Home(slug) + "/" <= path
  {
    var where := q.s.where;
    var slot := if q.Restore? then RESERVED_SLOT else q.s.slot;
    if where.BearsData() {
      assert where.dataDirectory == Home(slug) + "/volumes" && where.snapshotDirectory == Home(slug) + "/snapshots";
    }
    BelowTheHome(slug, "/volumes", "");
    BelowTheHome(slug, "/volumes", ".restoring");
    BelowTheHome(slug, "/volumes", ".replaced");
    var file := "/" + slot + Exchange.ARCHIVE_SUFFIX;
    BelowTheHome(slug, "/snapshots", file);
    BelowTheHome(slug, "/snapshots", file + ".tmp");
    assert (Home(slug) + "/volumes") + "" == Home(slug) + "/volumes";
    assert Exchange.ArchivePath(Home(slug) + "/snapshots", slot) == (Home(slug) + "/snapshots") + file;
    assert Exchange.Temporary((Home(slug) + "/snapshots") + file) == (Home(slug) + "/snapshots") + (file + ".tmp");
  }

  lemma AnotherHomeIsOutOfReach(pairs: seq<Pair>, slug: string, reserved: set<string>, path: string)
    requires MachineTexts.Slug(slug, reserved) && NeverOn(pairs, slug, reserved) && Home(slug) + "/" <= path
    ensures OutOfReach(pairs, path)
  {
    forall p | p in pairs ensures path !in PairFootprint(p.0, p.1).trees && path !in PairFootprint(p.0, p.1).archives {
      var other :| other != slug && MachineTexts.Slug(other, reserved) && ActsOn(p.0, other) && ActsOn(p.1, other);
      if path in PairFootprint(p.0, p.1).trees || path in PairFootprint(p.0, p.1).archives {
        var q := if path in FootprintOf(p.0).trees || path in FootprintOf(p.0).archives then p.0 else p.1;
        FootprintIsAtHome(q, other, path);
        HomesAreApart(slug, other, reserved, path);
      }
    }
  }

  /**
   * No run of operations on other user services, whatever fails in it, moves a tree or an archive
   * under the home of this one, or its sheet, its service, its container or its account.
   */
  method RunBeside(x: Executor, pairs: seq<Pair>, slug: string, reserved: set<string>)
    requires Coherent(x.text) && MachineTexts.Slug(slug, reserved) && NeverOn(pairs, slug, reserved)
    requires forall p :: p in pairs ==> Approvable(x.text, p.0) && Approvable(x.text, p.1) && p.0.s.where.account == p.1.s.where.account
    requires Steady(x)
    modifies x
    ensures Steady(x)
    ensures StandsAs(old(x.host), x.host, Account(slug))
    ensures forall path :: Home(slug) + "/" <= path ==> Exchange.SameAt(old(x.host).holdings.disk.trees, x.host.holdings.disk.trees, path)
    ensures forall path :: Home(slug) + "/" <= path ==> Exchange.SameAt(old(x.host).holdings.disk.archives, x.host.holdings.disk.archives, path)
  {
    Run(x, pairs);
    forall p | p in pairs ensures p.0.s.where.account != Account(slug) {
      var other :| other != slug && MachineTexts.Slug(other, reserved) && ActsOn(p.0, other) && ActsOn(p.1, other);
      AccountsAreUsers(slug, other, reserved);
    }
    assert Unnamed(pairs, Account(slug));
    forall path | Home(slug) + "/" <= path ensures OutOfReach(pairs, path) {
      AnotherHomeIsOutOfReach(pairs, slug, reserved, path);
    }
  }
}
