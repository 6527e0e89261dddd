/** Everything a user service owns on a machine, derived from its definition and its slug. */
module UserServices {
  import opened Wrappers
  import opened Placements
  import opened Lines
  import opened Directories
  import opened MachineTexts

  const HOMES := "/var/lib/"

  /** What a verified definition says of itself; its lines are already interpolated. */
  datatype Definition = Definition(
    slug: string,
    image: string,
    containerPort: int,
    volumes: seq<string>,
    tmpfs: seq<string>,
    environment: seq<string>,
    secretKeys: seq<string>
  )

  function Account(slug: string): string { USER_PREFIX + slug }

  function Home(slug: string): string { HOMES + Account(slug) }

  function Root(slug: string): string { Home(slug) + "/volumes" }

  function MountsOf(root: string, paths: seq<string>): seq<VolumeMount> {
    seq(|paths|, i requires 0 <= i < |paths| => VolumeMount(root + paths[i], paths[i]))
  }

  /** userServicePlacementOf: a definition that declares no volume keeps nothing, and names no root at all. */
  function PlacementOf(d: Definition): Placement {
    Placement(
      Account(d.slug), Home(d.slug), "Your Cloud managed " + d.slug + " user service", Account(d.slug),
      d.image, d.containerPort, d.tmpfs,
      if d.volumes == [] then "" else Root(d.slug),
      MountsOf(Root(d.slug), d.volumes),
      if d.volumes == [] then "" else Home(d.slug) + "/snapshots",
      d.secretKeys, d.environment, "")
  }

  /** userServicePlacementOfSlug: what the slug alone decides, which is all an archive operation knows. */
  function PlacementOfSlug(slug: string): Placement {
    Placement(Account(slug), Home(slug), "Your Cloud managed " + slug + " user service", Account(slug),
      "", 0, [], Root(slug), [], Home(slug) + "/snapshots", [], [], "")
  }

  /** A placement of this user service, whatever revision of it a plan describes. */
  ghost predicate Places(where: Placement, slug: string) {
    where == PlacementOfSlug(slug) || exists d: Definition :: d.slug == slug && where == PlacementOf(d)
  }

  /** A container path is absolute, and no segment of it is empty. */
  predicate Absolute(path: string) { path != "" && path[0] == '/' && "" !in Split(path[1..], '/') }

  predicate Verified(d: Definition, reserved: set<string>) {
    Slug(d.slug, reserved) && forall p :: p in d.volumes ==> Absolute(p)
  }

  lemma MountsAreCanonical(root: string, path: string)
    requires Absolute(path)
    ensures Canonical(root, root + path)
  {
    var host := root + path;
    assert path == "/" + path[1..];
    assert host == (root + "/") + path[1..];
    assert host[|root| + 1..] == path[1..];
    assert |host| > |root|;
  }

  /** Every directory a user service needs is named, parents first, down to each of its volumes. */
  lemma UserDirectoriesAreComplete(d: Definition, reserved: set<string>, path: string)
    requires Verified(d, reserved) && path in d.volumes
    ensures ParentsFirst(Root(d.slug), DurableDirectories(PlacementOf(d)))
    ensures Root(d.slug) + path in DurableDirectories(PlacementOf(d))
  {
    var w := PlacementOf(d);
    forall m | m in w.volumes ensures Canonical(w.dataDirectory, m.host) {
      var i :| 0 <= i < |d.volumes| && w.volumes[i] == m;
      assert d.volumes[i] in d.volumes;
      MountsAreCanonical(w.dataDirectory, d.volumes[i]);
    }
    var i :| 0 <= i < |d.volumes| && d.volumes[i] == path;
    assert w.volumes[i] == VolumeMount(Root(d.slug) + path, path) && w.volumes[i] in w.volumes;
    DurableDirectoriesAreComplete(w);
    EveryVolumeIsNamed(w, w.volumes[i]);
  }

  lemma SlugsHoldNoSeparator(slug: string, reserved: set<string>)
    requires Slug(slug, reserved)
    ensures '/' !in slug
  {
  }

  /** Nothing under the home of one user service is under the home of another. */
  lemma HomesAreApart(slug: string, other: string, reserved: set<string>, path: string)
    requires Slug(slug, reserved) && Slug(other, reserved)
    requires Home(slug) + "/" <= path && Home(other) + "/" <= path
    ensures slug == other
  {
    SlugsHoldNoSeparator(slug, reserved);
    SlugsHoldNoSeparator(other, reserved);
    var base := HOMES + USER_PREFIX;
    Regrouped(HOMES, USER_PREFIX, slug);
    Regrouped(HOMES, USER_PREFIX, other);
    var below := path[|base|..];
    var a, b := below[|slug| + 1..], below[|other| + 1..];
    assert below == slug + ['/'] + a && below == other + ['/'] + b;
    SplitAtTheFirst(slug, '/', a);
    SplitAtTheFirst(other, '/', b);
    assert Split(below, '/')[0] == slug && Split(below, '/')[0] == other;
  }

  /** Two slugs are two accounts, and every account derived from one is a user's. */
  lemma AccountsAreUsers(slug: string, other: string, reserved: set<string>)
    requires Slug(slug, reserved)
    ensures IsUser(Account(slug), reserved)
    ensures Account(slug) == Account(other) <==> slug == other
  {
    assert Account(slug)[|USER_PREFIX|..] == slug && Account(other)[|USER_PREFIX|..] == other;
  }
}
