/** Every directory the data of a service needs before it starts, each after the one above it. */
module Directories {
  import opened Wrappers
  import opened Placements
  import opened Lines

  /** The directory a path stands in. */
  function Parent(path: string): string {
    if path == "" then ""
    else if path[|path| - 1] == '/' then path[..|path| - 1]
    else Parent(path[..|path| - 1])
  }

  /** The directories named one after the other by some segments, an empty one naming nothing. */
  function Descent(current: string, segments: seq<string>): seq<string>
    decreases |segments|
  {
    if segments == [] then []
    else if segments[0] == "" then Descent(current, segments[1..])
    else [current + "/" + segments[0]] + Descent(current + "/" + segments[0], segments[1..])
  }

  /** descendTo: what stands strictly under a root on the way down to a path, and that path. */
  function DescendTo(root: string, path: string): seq<string> {
    if path == root then []
    else if !(root + "/" <= path) then [path]
    else Descent(root, Split(path[|root| + 1..], '/'))
  }

  function AppendedNew(named: seq<string>, more: seq<string>): seq<string>
    decreases |more|
  {
    if more == [] then named
    else AppendedNew(if more[0] in named then named else named + [more[0]], more[1..])
  }

  function Named(named: seq<string>, root: string, volumes: seq<VolumeMount>): seq<string>
    decreases |volumes|
  {
    if volumes == [] then named
    else Named(AppendedNew(named, DescendTo(root, volumes[0].host)), root, volumes[1..])
  }

  function DurableDirectories(w: Placement): seq<string> {
    if !w.BearsData() then [] else Named([w.dataDirectory], w.dataDirectory, w.volumes)
  }

  /** durableDirectories: two nested loops and a set of what is already named. */
  method ListDurableDirectories(w: Placement) returns (directories: seq<string>)
    ensures directories == DurableDirectories(w)
  {
    if !w.BearsData() {
      return [];
    }
    directories := [w.dataDirectory];
    var held := {w.dataDirectory};
    for n := 0 to |w.volumes|
      invariant forall d :: d in held <==> d in directories
      invariant Named(directories, w.dataDirectory, w.volumes[n..]) == DurableDirectories(w)
    {
      var descent := DescendTo(w.dataDirectory, w.volumes[n].host);
      ghost var before := directories;
      for k := 0 to |descent|
        invariant forall d :: d in held <==> d in directories
        invariant AppendedNew(directories, descent[k..]) == AppendedNew(before, descent)
      {
        assert descent[k..][1..] == descent[k + 1..];
        if descent[k] !in held {
          held := held + {descent[k]};
          directories := directories + [descent[k]];
        }
      }
      assert w.volumes[n..][1..] == w.volumes[n + 1..];
    }
  }

  /** One root, nothing twice, and each entry after the directory it stands in. */
  ghost predicate ParentsFirst(root: string, named: seq<string>) {
    if |named| <= 1 then named == [root]
    else
      var last := named[|named| - 1];
      ParentsFirst(root, named[..|named| - 1]) && last !in named[..|named| - 1] && Parent(last) in named[..|named| - 1]
  }

  /** Each directory stands in the one before it, the first of them in `above`. */
  ghost predicate Chained(above: string, chain: seq<string>)
    decreases |chain|
  {
    chain != [] ==> Parent(chain[0]) == above && Chained(chain[0], chain[1..])
  }

  lemma {:induction false} ParentOfSegment(current: string, segment: string)
    requires '/' !in segment
    ensures Parent(current + "/" + segment) == current
  {
    var path := current + "/" + segment;
    if segment == "" {
      assert path[..|path| - 1] == current;
    } else {
      assert path[|path| - 1] == segment[|segment| - 1] && segment[|segment| - 1] in segment;
      assert path[..|path| - 1] == current + "/" + segment[..|segment| - 1];
      ParentOfSegment(current, segment[..|segment| - 1]);
    }
  }

  lemma {:induction false} PartsHoldNoSeparator(s: string, separator: char)
    ensures forall p :: p in Split(s, separator) ==> separator !in p
  {
    if s != "" {
      PartsHoldNoSeparator(s[1..], separator);
      if s[0] != separator {
        var rest := Split(s[1..], separator);
        assert rest[0] in rest;
        assert forall p :: p in rest[1..] ==> p in rest;
      }
    }
  }

  lemma {:induction false} DescentIsChained(current: string, segments: seq<string>)
    requires forall p :: p in segments ==> '/' !in p
    ensures Chained(current, Descent(current, segments))
    decreases |segments|
  {
    if segments != [] {
      assert segments[0] in segments;
      if segments[0] == "" {
        DescentIsChained(current, segments[1..]);
      } else {
        ParentOfSegment(current, segments[0]);
        DescentIsChained(current + "/" + segments[0], segments[1..]);
      }
    }
  }

  lemma {:induction false} AppendingAChain(root: string, named: seq<string>, above: string, chain: seq<string>)
    requires ParentsFirst(root, named) && above in named && Chained(above, chain)
    ensures ParentsFirst(root, AppendedNew(named, chain))
    ensures forall d :: d in named || d in chain ==> d in AppendedNew(named, chain)
    ensures named <= AppendedNew(named, chain)
    decreases |chain|
  {
    if chain != [] {
      var more := if chain[0] in named then named else named + [chain[0]];
      if chain[0] !in named {
        assert more[..|more| - 1] == named;
      }
      AppendingAChain(root, more, chain[0], chain[1..]);
    }
  }

  /** Under the root, as every volume of a placement is. */
  predicate Under(root: string, path: string) { path == root || root + "/" <= path }

  lemma {:induction false} NamingVolumes(root: string, named: seq<string>, volumes: seq<VolumeMount>)
    requires ParentsFirst(root, named) && root in named
    requires forall m :: m in volumes ==> Under(root, m.host)
    ensures ParentsFirst(root, Named(named, root, volumes))
    ensures forall d :: d in named ==> d in Named(named, root, volumes)
    ensures forall m, d :: m in volumes && d in DescendTo(root, m.host) ==> d in Named(named, root, volumes)
    decreases |volumes|
  {
    if volumes != [] {
      var path := volumes[0].host;
      assert volumes[0] in volumes;
      var descent := DescendTo(root, path);
      if path != root {
        PartsHoldNoSeparator(path[|root| + 1..], '/');
        DescentIsChained(root, Split(path[|root| + 1..], '/'));
      }
      AppendingAChain(root, named, root, descent);
      NamingVolumes(root, AppendedNew(named, descent), volumes[1..]);
      forall m, d | m in volumes && d in DescendTo(root, m.host) ensures d in Named(named, root, volumes) {
        assert m == volumes[0] || m in volumes[1..];
      }
    }
  }

  lemma {:induction false} AppendingKeeps(named: seq<string>, more: seq<string>)
    ensures forall d :: d in named ==> d in AppendedNew(named, more)
    decreases |more|
  {
    if more != [] {
      AppendingKeeps(if more[0] in named then named else named + [more[0]], more[1..]);
    }
  }

  /** The root is named whatever the volumes are. */
  lemma {:induction false} NamingKeeps(named: seq<string>, root: string, volumes: seq<VolumeMount>)
    ensures forall d :: d in named ==> d in Named(named, root, volumes)
    decreases |volumes|
  {
    if volumes != [] {
      AppendingKeeps(named, DescendTo(root, volumes[0].host));
      NamingKeeps(AppendedNew(named, DescendTo(root, volumes[0].host)), root, volumes[1..]);
    }
  }

  /** Of any volumes under the root: nothing twice, parents first, and nothing on the way left out. */
  lemma DurableDirectoriesAreComplete(w: Placement)
    requires w.BearsData() && forall m :: m in w.volumes ==> Under(w.dataDirectory, m.host)
    ensures ParentsFirst(w.dataDirectory, DurableDirectories(w))
    ensures forall m, d :: m in w.volumes && d in DescendTo(w.dataDirectory, m.host) ==> d in DurableDirectories(w)
  {
    NamingVolumes(w.dataDirectory, [w.dataDirectory], w.volumes);
  }

  /** What some segments spell below a directory. */
  function Below(segments: seq<string>): string { if segments == [] then "" else "/" + segments[0] + Below(segments[1..]) }

  lemma OneCharacterMore(c: char, segment: string, below: string, rest: string)
    requires "/" + segment + below == "/" + rest
    ensures "/" + ([c] + segment) + below == "/" + ([c] + rest)
  {
    Regrouped("/", segment, below);
    assert ("/" + (segment + below))[1..] == segment + below && ("/" + rest)[1..] == rest;
    Regrouped("/", [c] + segment, below);
    Regrouped([c], segment, below);
  }

  lemma {:induction false} SegmentsSpellThePath(rest: string)
    ensures Below(Split(rest, '/')) == "/" + rest
  {
    if rest == "" {
      assert [""][1..] == [];
    } else {
      var tail := Split(rest[1..], '/');
      SegmentsSpellThePath(rest[1..]);
      assert rest == [rest[0]] + rest[1..];
      if rest[0] == '/' {
        assert ([""] + tail)[1..] == tail;
      } else {
        assert ([[rest[0]] + tail[0]] + tail[1..])[1..] == tail[1..];
        OneCharacterMore(rest[0], tail[0], Below(tail[1..]), rest[1..]);
      }
    }
  }

  /** The last directory of a descent is where its segments lead, when none of them is empty. */
  lemma {:induction false} DescentEndsBelow(current: string, segments: seq<string>)
    requires segments != [] && "" !in segments
    ensures var d := Descent(current, segments); d != [] && d[|d| - 1] == current + Below(segments)
    decreases |segments|
  {
    var next := current + "/" + segments[0];
    var below := Below(segments[1..]);
    assert segments[0] in segments;
    Regrouped(current, "/", segments[0]);
    Regrouped(current, "/" + segments[0], below);
    if |segments| == 1 {
      assert segments[1..] == [];
      assert next + "" == next;
    } else {
      DescentEndsBelow(next, segments[1..]);
    }
  }

  /** A path under the root that no doubled separator makes longer than the directory it names. */
  predicate Canonical(root: string, path: string) {
    Under(root, path) && (path != root ==> "" !in Split(path[|root| + 1..], '/'))
  }

  lemma DescentReachesThePath(root: string, path: string)
    requires Canonical(root, path) && path != root
    ensures path in DescendTo(root, path)
  {
    var rest := path[|root| + 1..];
    SegmentsSpellThePath(rest);
    DescentEndsBelow(root, Split(rest, '/'));
    assert path == root + ("/" + rest);
    var d := DescendTo(root, path);
    assert d[|d| - 1] in d;
  }

  /** A volume on a canonical path is itself among the directories. */
  lemma EveryVolumeIsNamed(w: Placement, m: VolumeMount)
    requires w.BearsData() && forall v :: v in w.volumes ==> Under(w.dataDirectory, v.host)
    requires m in w.volumes && Canonical(w.dataDirectory, m.host)
    ensures m.host in DurableDirectories(w)
  {
    if m.host == w.dataDirectory {
      NamingKeeps([w.dataDirectory], w.dataDirectory, w.volumes);
    } else {
      DurableDirectoriesAreComplete(w);
      DescentReachesThePath(w.dataDirectory, m.host);
    }
  }
}
