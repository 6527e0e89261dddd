/**
 * The return of a service's data: the tree of the data directory and the tree of a named archive
 * change places through a handful of renames, any step of which may fail.
 */
module Exchange {
  import opened Wrappers

  type Tree = string

  /** What stands at a path: a whole tree, or what an interrupted write or removal left of one. */
  datatype Content = Whole(tree: Tree) | Torn

  /** Directories of data by path, and archive files by path, temporary names included. */
  datatype Disk = Disk(trees: map<string, Content>, archives: map<string, Content>)

  /** Every instant the disk went through, the latest outermost. */
  datatype Trace = Start | Then(past: Trace, disk: Disk)

  const ARCHIVE_SUFFIX := ".tar.gz"

  function ArchivePath(directory: string, slot: string): string { directory + "/" + slot + ARCHIVE_SUFFIX }

  function Temporary(path: string): string { path + ".tmp" }

  function Restoring(data: string): string { data + ".restoring" }

  function Replaced(data: string): string { data + ".replaced" }

  /** No slot is another slot, and no slot is the temporary name of one. */
  lemma SlotsAreApart(directory: string, slot: string, other: string)
    ensures ArchivePath(directory, slot) == ArchivePath(directory, other) <==> slot == other
    ensures ArchivePath(directory, slot) != Temporary(ArchivePath(directory, other))
  {
    var a, b := ArchivePath(directory, slot), ArchivePath(directory, other);
    if a == b {
      var prefix := directory + "/";
      assert |slot| == |other|;
      assert a[|prefix|..|prefix| + |slot|] == slot && b[|prefix|..|prefix| + |other|] == other;
    }
    assert a[|a| - 1] == ARCHIVE_SUFFIX[6] == 'z';
    assert Temporary(b)[|Temporary(b)| - 1] == ".tmp"[3] == 'p';
  }

  /** One call: where it acts, and the two trees it may not lose. */
  datatype Call = Call(data: string, archive: string, reserved: string, current: Content, wanted: Content)

  predicate At(m: map<string, Content>, path: string, c: Content) { path in m && m[path] == c }

  /** Both trees of a call are still held somewhere, each in one of the places it may be in. */
  predicate Preserved(d: Disk, c: Call) {
    && (At(d.trees, c.data, c.current) || At(d.trees, Replaced(c.data), c.current) || At(d.archives, c.reserved, c.current))
    && (At(d.archives, c.archive, c.wanted) || At(d.trees, c.data, c.wanted))
  }

  predicate InPlace(d: Disk, c: Call) { At(d.trees, c.data, c.current) && At(d.archives, c.archive, c.wanted) }

  ghost predicate AllPreserved(trace: Trace, c: Call) {
    trace.Then? ==> AllPreserved(trace.past, c) && Preserved(trace.disk, c)
  }

  ghost predicate SameBut(before: map<string, Content>, after: map<string, Content>, moved: set<string>) {
    forall p :: p !in moved ==> SameAt(before, after, p)
  }

  /** Nothing but the data, its two temporary names, the reserved slot and its temporary file moves. */
  ghost predicate OnlyMoved(before: Disk, after: Disk, data: string, reserved: string) {
    && SameBut(before.trees, after.trees, {data, Restoring(data), Replaced(data)})
    && SameBut(before.archives, after.archives, {reserved, Temporary(reserved)})
  }

  class Storage {
    const reliable: bool         // on a reliable disk every effect is made, and made whole
    var disk: Disk
    ghost var trace: Trace

    constructor (disk: Disk, reliable: bool)
      ensures this.reliable == reliable && this.disk == disk && trace == Start
    {
      this.disk, this.reliable := disk, reliable;
      trace := Start;
    }

    method Do(after: Disk) returns (ok: bool)
      modifies this
      ensures disk == old(disk) || disk == after
      ensures ok ==> disk == after
      ensures trace == Then(old(trace), disk)
      ensures reliable ==> ok
    {
      var happened: bool := *;
      happened := happened || reliable;
      if happened {
        disk := after;
      }
      trace := Then(trace, disk);
      ok := *;
      ok := (ok || reliable) && happened;
    }

    /** A removal that fails may have taken a part of the tree. */
    method RemoveAll(path: string) returns (ok: bool)
      modifies this
      ensures disk == old(disk) || disk == old(disk).(trees := old(disk).trees[path := Torn])
              || disk == old(disk).(trees := old(disk).trees - {path})
      ensures ok ==> disk == old(disk).(trees := old(disk).trees - {path})
      ensures trace == Then(old(trace), disk)
      ensures reliable ==> ok
    {
      var whole: bool := *;
      whole := whole || reliable;
      ok := Do(if whole then After(disk, Clear(path)) else disk.(trees := disk.trees[path := Torn]));
      ok := ok && whole;
    }

    /** The archive is unpacked into a fresh directory; a failure takes it away again, as far as it can. */
    method Unpack(archive: string, restoring: string, ghost c: Call) returns (ok: bool)
      requires restoring == Restoring(c.data)
      modifies this
      ensures trace.Then? && trace.disk == disk
      ensures disk == old(disk).(trees := disk.trees) && SameBut(old(disk).trees, disk.trees, {restoring})
      ensures ok ==> archive in disk.archives && disk.trees == old(disk).trees[restoring := disk.archives[archive]]
      ensures old(AllPreserved(trace, c) && Preserved(disk, c)) ==> AllPreserved(trace, c) && Preserved(disk, c)
      ensures reliable && archive in old(disk).archives ==> ok
    {
      NamesAreApart(c.data);
      ok := Do(disk.(trees := disk.trees[restoring := Torn]));
      if ok && archive in disk.archives {
        ok := Do(After(disk, Unpacked(archive, restoring)));
        if ok { return; }
      }
      ok := RemoveAll(restoring);
      ok := false;
    }

    /** The data is archived into a temporary file beside the slot it is meant for. */
    method StageArchive(data: string, staged: string, ghost c: Call) returns (ok: bool)
      requires staged == Temporary(c.reserved) && staged != c.archive
      modifies this
      ensures trace.Then? && trace.disk == disk
      ensures disk == old(disk).(archives := disk.archives) && SameBut(old(disk).archives, disk.archives, {staged})
      ensures ok ==> data in disk.trees && disk.archives == old(disk).archives[staged := disk.trees[data]]
      ensures old(AllPreserved(trace, c) && Preserved(disk, c)) ==> AllPreserved(trace, c) && Preserved(disk, c)
      ensures reliable && data in old(disk).trees ==> ok
    {
      TemporaryIsApart(c.reserved);
      ghost var kept := AllPreserved(trace, c) && Preserved(disk, c);
      ok := Do(disk.(archives := disk.archives - {staged}));
      assert kept ==> AllPreserved(trace, c) && Preserved(disk, c);
      if ok {
        ok := Do(disk.(archives := disk.archives[staged := Torn]));
      }
      assert kept ==> AllPreserved(trace, c) && Preserved(disk, c);
      if ok && data in disk.trees {
        ok := Do(After(disk, Staged(data, staged)));
        if ok { return; }
      }
      ok := Do(disk.(archives := disk.archives - {staged}));
      ok := false;
    }

    /** What a previous return left, under either of its two temporary names. */
    method ClearLeftovers(data: string, ghost c: Call) returns (ok: bool)
      requires data == c.data
      modifies this
      ensures trace.Then? && trace.disk == disk
      ensures disk == old(disk).(trees := disk.trees)
      ensures SameBut(old(disk).trees, disk.trees, {Restoring(data), Replaced(data)})
      ensures ok ==> Restoring(data) !in disk.trees && Replaced(data) !in disk.trees
      ensures old(AllPreserved(trace, c) && InPlace(disk, c)) ==> AllPreserved(trace, c)
      ensures reliable ==> ok
    {
      NamesAreApart(data);
      ok := RemoveAll(Restoring(data));
      if ok {
        ok := RemoveAll(Replaced(data));
      }
    }

    /** The data is renamed aside; where that fails, nothing of the call has been put in place. */
    method SetAside(data: string, staged: string, ghost c: Call) returns (ok: bool)
      requires data == c.data && staged == Temporary(c.reserved) && c.archive != staged
      requires At(disk.trees, data, c.current) && At(disk.archives, c.archive, c.wanted)
      modifies this
      ensures trace.Then? && trace.disk == disk
      ensures old(AllPreserved(trace, c)) ==> AllPreserved(trace, c)
      ensures OnlyMoved(old(disk), disk, data, c.reserved)
      ensures SameAt(old(disk).archives, disk.archives, c.reserved) && At(disk.archives, c.archive, c.wanted)
      ensures ok ==> disk == old(disk).(trees := (old(disk).trees - {data})[Replaced(data) := c.current])
      ensures !ok ==> At(disk.trees, data, c.current) || (data !in disk.trees && At(disk.trees, Replaced(data), c.current))
      ensures reliable ==> ok
    {
      NamesAreApart(data);
      TemporaryIsApart(c.reserved);
      ghost var kept := AllPreserved(trace, c);
      ok := Do(After(disk, Renamed(data, Replaced(data))));
      assert kept ==> AllPreserved(trace, c);
      if !ok {
        ok := RemoveAll(Restoring(data));
        assert kept ==> AllPreserved(trace, c);
        ok := Do(disk.(archives := disk.archives - {staged}));
        ok := false;
      }
    }

    /** A staged archive that will not be placed is taken away, as far as it can be. */
    method Unstage(staged: string, ghost c: Call)
      requires staged == Temporary(c.reserved) && c.archive != staged && Preserved(disk, c)
      modifies this
      ensures trace.Then? && trace.disk == disk
      ensures old(AllPreserved(trace, c)) ==> AllPreserved(trace, c)
      ensures disk == old(disk) || disk == old(disk).(archives := old(disk).archives - {staged})
      ensures Preserved(disk, c)
    {
      TemporaryIsApart(c.reserved);
      var ok := Do(After(disk, Unstaged(staged)));
    }

    /** The data first, the reserved archive second, and what was replaced removed last. */
    method PutInPlace(data: string, reserved: string, ghost c: Call) returns (ok: bool)
      requires data == c.data && reserved == c.reserved && c.archive != Temporary(reserved)
      requires data !in disk.trees && At(disk.trees, Replaced(data), c.current) && At(disk.trees, Restoring(data), c.wanted)
      requires At(disk.archives, c.archive, c.wanted) && At(disk.archives, Temporary(reserved), c.current)
      modifies this
      ensures trace.Then? && trace.disk == disk
      ensures OnlyMoved(old(disk), disk, data, reserved)
      ensures old(AllPreserved(trace, c)) ==> AllPreserved(trace, c)
      ensures !ok ==> Aftermath(old(disk), disk, c)
      ensures ok ==> disk.trees == old(disk).trees[data := c.wanted] - {Restoring(data), Replaced(data)}
      ensures ok ==> disk.archives == old(disk).archives[reserved := c.current] - {Temporary(reserved)}
      ensures reliable ==> ok
    {
      NamesAreApart(data);
      TemporaryIsApart(reserved);
      ghost var kept := AllPreserved(trace, c);
      var restoring, staged := Restoring(data), Temporary(reserved);
      ok := Do(After(disk, Renamed(restoring, data)));
      assert kept ==> AllPreserved(trace, c);
      if !ok {
        Unstage(staged, c);
        return;
      }
      ok := Do(After(disk, PlacedIn(staged, reserved)));
      assert kept ==> AllPreserved(trace, c);
      if !ok {
        Unstage(staged, c);
        return;
      }
      ok := RemoveAll(Replaced(data));
      if ok {
        ok := Do(disk);                                  // the two directories are synchronised
      }
    }

    /**
     * The whole of a return. Whatever fails, both trees are held at every instant; on success the
     * data is the archive's tree and the reserved slot holds what it replaced; no other slot moves.
     */
    method ExchangeServiceData(archive: string, data: string, reserved: string) returns (ok: bool)
      requires archive != Temporary(reserved)
      requires trace == Start
      modifies this
      ensures trace.Then? && trace.disk == disk
      ensures OnlyMoved(old(disk), disk, data, reserved)
      ensures archive !in old(disk).archives || data !in old(disk).trees ==> !ok
      ensures ok ==> disk == Exchanged(old(disk), archive, data, reserved)
      ensures archive in old(disk).archives && data in old(disk).trees ==>
                var c := Call(data, archive, reserved, old(disk).trees[data], old(disk).archives[archive]);
                AllPreserved(trace, c) && (!ok ==> Aftermath(old(disk), disk, c))
      ensures reliable && archive in old(disk).archives && data in old(disk).trees ==> ok
    {
      NamesAreApart(data);
      TemporaryIsApart(reserved);
      ghost var here := archive in disk.archives && data in disk.trees;
      ghost var c := Call(data, archive, reserved,
                          if data in disk.trees then disk.trees[data] else Torn,
                          if archive in disk.archives then disk.archives[archive] else Torn);
      ok := ClearLeftovers(data, c);
      assert SameAt(old(disk).trees, disk.trees, data);
      if !ok { return; }
      ghost var cleared := disk;
      ok := Unpack(archive, Restoring(data), c);
      assert SameAt(cleared.trees, disk.trees, data) && SameAt(cleared.trees, disk.trees, Replaced(data));
      OnlyMovedJoins(old(disk), cleared, disk, data, reserved);
      if !ok { return; }
      ghost var unpacked := disk;
      ok := StageArchive(data, Temporary(reserved), c);
      assert SameAt(unpacked.archives, disk.archives, archive) && SameAt(unpacked.archives, disk.archives, reserved);
      if !ok {
        ghost var unstaged := disk;
        ok := RemoveAll(Restoring(data));
        assert SameAt(unstaged.trees, disk.trees, data);
        return false;
      }
      ok := SetAside(data, Temporary(reserved), c);
      if !ok { return; }
      ok := PutInPlace(data, reserved, c);
    }
  }

  lemma OnlyMovedJoins(a: Disk, b: Disk, c: Disk, data: string, reserved: string)
    requires OnlyMoved(a, b, data, reserved) && OnlyMoved(b, c, data, reserved)
    ensures OnlyMoved(a, c, data, reserved)
  {
    forall p | p !in {data, Restoring(data), Replaced(data)} ensures SameAt(a.trees, c.trees, p) {
      assert SameAt(a.trees, b.trees, p) && SameAt(b.trees, c.trees, p);
    }
    forall p | p !in {reserved, Temporary(reserved)} ensures SameAt(a.archives, c.archives, p) {
      assert SameAt(a.archives, b.archives, p) && SameAt(b.archives, c.archives, p);
    }
  }

  /** The disk a return that succeeds leaves. */
  function Exchanged(d: Disk, archive: string, data: string, reserved: string): Disk
    requires archive in d.archives && data in d.trees
  {
    Disk((d.trees - {Restoring(data), Replaced(data)})[data := d.archives[archive]],
         (d.archives - {Temporary(reserved)})[reserved := d.trees[data]])
  }

  lemma NamesAreApart(data: string)
    ensures Restoring(data) != data && Replaced(data) != data && Restoring(data) != Replaced(data)
  {
    assert |Restoring(data)| == |data| + 10 && |Replaced(data)| == |data| + 9;
  }

  lemma TemporaryIsApart(path: string)
    ensures Temporary(path) != path
  {
    assert |Temporary(path)| == |path| + 4;
  }

  predicate SameAt(before: map<string, Content>, after: map<string, Content>, path: string) {
    (path in after <==> path in before) && (path in before ==> after[path] == before[path])
  }

  /** Where a call that failed may have left the two trees. */
  predicate Aftermath(before: Disk, after: Disk, c: Call) {
    || (At(after.trees, c.data, c.current) && SameAt(before.archives, after.archives, c.reserved))
    || AsideOnly(before, after, c)
    || (At(after.trees, c.data, c.wanted) && At(after.archives, c.reserved, c.current))
  }

  /** The replaced tree stands under its temporary name, and its archive never reached the slot. */
  predicate AsideOnly(before: Disk, after: Disk, c: Call) {
    && At(after.trees, Replaced(c.data), c.current) && SameAt(before.archives, after.archives, c.reserved)
    && (At(after.trees, c.data, c.wanted) || (c.data !in after.trees && At(after.archives, c.archive, c.wanted)))
  }

  // ---- What a return keeps, and what the return that undoes it keeps.

  /** A tree some directory or some archive of this disk holds. */
  ghost predicate HeldOn(d: Disk, t: Content) {
    (exists p :: At(d.trees, p, t)) || (exists p :: At(d.archives, p, t))
  }

  /** What is left of a disk once the temporary names, and a slot about to be written, are set aside. */
  function Lasting(d: Disk, archive: string, data: string, reserved: string): Disk {
    Disk(d.trees - {Restoring(data), Replaced(data)},
         d.archives - {Temporary(reserved)} - (if archive == reserved then {} else {reserved}))
  }

  /**
   * A return that succeeds keeps exactly the trees held outside its temporary names: a tree that
   * was only under `.replaced`, or only in the reserved slot of a return to another one, is gone.
   */
  lemma ExchangeKeeps(d: Disk, archive: string, data: string, reserved: string, t: Content)
    requires archive in d.archives && data in d.trees && archive != Temporary(reserved)
    ensures HeldOn(Exchanged(d, archive, data, reserved), t) <==> HeldOn(Lasting(d, archive, data, reserved), t)
  {
    NamesAreApart(data);
    TemporaryIsApart(reserved);
    var after, lasting := Exchanged(d, archive, data, reserved), Lasting(d, archive, data, reserved);
    if HeldOn(after, t) {
      if p :| At(after.trees, p, t) {
        if p == data {
          assert At(lasting.archives, archive, t);
        } else {
          assert At(lasting.trees, p, t);
        }
      } else {
        var p :| At(after.archives, p, t);
        if p == reserved {
          assert At(lasting.trees, data, t);
        } else {
          assert At(lasting.archives, p, t);
        }
      }
    }
    if HeldOn(lasting, t) {
      if p :| At(lasting.trees, p, t) {
        if p == data {
          assert At(after.archives, reserved, t);
        } else {
          assert At(after.trees, p, t);
        }
      } else {
        var p :| At(lasting.archives, p, t);
        if p == archive {
          assert At(after.trees, data, t);
        } else {
          assert At(after.archives, p, t);
        }
      }
    }
  }

  /** Returning to the reserved slot twice is the identity on the data and on that slot. */
  lemma ReturnTwiceIsIdentity(d: Disk, data: string, reserved: string)
    requires reserved in d.archives && data in d.trees
    ensures var once := Exchanged(d, reserved, data, reserved);
            && reserved in once.archives && data in once.trees
            && var twice := Exchanged(once, reserved, data, reserved);
               && At(twice.trees, data, d.trees[data]) && At(twice.archives, reserved, d.archives[reserved])
               && SameBut(d.trees, twice.trees, {Restoring(data), Replaced(data)})
               && SameBut(d.archives, twice.archives, {Temporary(reserved)})
  {
    NamesAreApart(data);
    TemporaryIsApart(reserved);
  }

  /** The data directory is ensured before a return, and stands empty where it had gone. */
  function Ensured(d: Disk, data: string): Disk {
    if data in d.trees then d else d.(trees := d.trees[data := Whole("")])
  }

  /**
   * A return that failed, undone by its signed rollback: the state it was replacing survives the
   * rollback exactly when it is held somewhere besides its own `.replaced` name. It always is
   * unless the failure came once the data had been renamed aside, and before the archive of it had
   * been renamed into the reserved slot.
   */
  lemma FailedReturnThenRollback(before: Disk, failed: Disk, c: Call)
    requires Aftermath(before, failed, c) && c.reserved in failed.archives
    ensures var ready := Ensured(failed, c.data);
            var undone := Exchanged(ready, c.reserved, c.data, c.reserved);
            && (HeldOn(undone, c.current) <==> HeldOn(Lasting(ready, c.reserved, c.data, c.reserved), c.current))
            && (!AsideOnly(before, failed, c) ==> HeldOn(undone, c.current))
  {
    NamesAreApart(c.data);
    TemporaryIsApart(c.reserved);
    var ready := Ensured(failed, c.data);
    var lasting := Lasting(ready, c.reserved, c.data, c.reserved);
    ExchangeKeeps(ready, c.reserved, c.data, c.reserved, c.current);
    if !AsideOnly(before, failed, c) {
      if At(failed.trees, c.data, c.current) {
        assert At(lasting.trees, c.data, c.current);
      } else {
        assert At(lasting.archives, c.reserved, c.current);
      }
    }
  }

  /**
   * Unless the replaced tree stands under its temporary name alone, the rollback keeps it whether
   * it succeeds, fails at any of its effects, or never reaches the disk.
   */
  lemma AnyRollbackKeeps(before: Disk, failed: Disk, after: Disk, c: Call)
    requires Aftermath(before, failed, c) && !AsideOnly(before, failed, c)
    requires c.reserved !in failed.archives ==> after == failed
    requires c.reserved in failed.archives && c.data in failed.trees ==>
               Preserved(after, Call(c.data, c.reserved, c.reserved, failed.trees[c.data], failed.archives[c.reserved]))
    ensures HeldOn(after, c.current)
  {
    assert At(failed.trees, c.data, c.current) || At(failed.archives, c.reserved, c.current);
    if c.reserved !in failed.archives {
      assert At(after.trees, c.data, c.current);
    } else if At(failed.trees, c.data, c.current) {
      assert At(after.trees, c.data, c.current) || At(after.trees, Replaced(c.data), c.current) || At(after.archives, c.reserved, c.current);
    } else {
      assert At(after.archives, c.reserved, c.current) || At(after.trees, c.data, c.current);
    }
  }

  /** What a disk holds anywhere a return and its rollback never write. */
  function Elsewhere(d: Disk, data: string, reserved: string): Disk {
    Disk(d.trees - {data, Restoring(data), Replaced(data)}, d.archives - {Temporary(reserved)})
  }

  /**
   * What becomes of a state left under `.replaced` alone once a rollback has cleared that name: it
   * was held elsewhere before the return began, or it was empty, as is the directory the rollback
   * makes where the returned data never came.
   */
  ghost predicate Survives(before: Disk, failed: Disk, c: Call) {
    HeldOn(Elsewhere(before, c.data, c.reserved), c.current) || (c.data !in failed.trees && c.current == Whole(""))
  }

  lemma LastingIsElsewhere(before: Disk, failed: Disk, c: Call)
    requires At(before.archives, c.archive, c.wanted) && c.archive != Temporary(c.reserved)
    requires OnlyMoved(before, failed, c.data, c.reserved) && AsideOnly(before, failed, c)
    ensures HeldOn(Lasting(Ensured(failed, c.data), c.reserved, c.data, c.reserved), c.current) <==> Survives(before, failed, c)
  {
    NamesAreApart(c.data);
    TemporaryIsApart(c.reserved);
    var lasting, elsewhere := Lasting(Ensured(failed, c.data), c.reserved, c.data, c.reserved), Elsewhere(before, c.data, c.reserved);
    if HeldOn(lasting, c.current) {
      if p :| At(lasting.trees, p, c.current) {
        if p == c.data {
          assert c.data in failed.trees ==> At(elsewhere.archives, c.archive, c.current);
        } else {
          assert SameAt(before.trees, failed.trees, p) && At(elsewhere.trees, p, c.current);
        }
      } else {
        var p :| At(lasting.archives, p, c.current);
        assert SameAt(before.archives, failed.archives, p) && At(elsewhere.archives, p, c.current);
      }
    }
    if Survives(before, failed, c) {
      if p :| At(elsewhere.trees, p, c.current) {
        assert SameAt(before.trees, failed.trees, p) && At(lasting.trees, p, c.current);
      } else if p :| At(elsewhere.archives, p, c.current) {
        assert SameAt(before.archives, failed.archives, p) && At(lasting.archives, p, c.current);
      } else {
        assert At(lasting.trees, c.data, c.current);
      }
    }
  }

  /**
   * Wherever a failed return left a state under `.replaced` alone, a rollback that succeeds keeps
   * it exactly when it survives, and so does one that stops as soon as it has cleared, unless the
   * archive that was staged of it still stands.
   */
  lemma AsideThenRollback(before: Disk, failed: Disk, c: Call)
    requires At(before.archives, c.archive, c.wanted) && c.archive != Temporary(c.reserved)
    requires OnlyMoved(before, failed, c.data, c.reserved) && AsideOnly(before, failed, c) && c.reserved in failed.archives
    ensures var ready := Ensured(failed, c.data);
            && (HeldOn(Exchanged(ready, c.reserved, c.data, c.reserved), c.current) <==> Survives(before, failed, c))
            && (HeldOn(Cleared(ready, c.data), c.current) <==>
                  (Survives(before, failed, c) || At(failed.archives, Temporary(c.reserved), c.current)))
  {
    TemporaryIsApart(c.reserved);
    LastingIsElsewhere(before, failed, c);
    var ready := Ensured(failed, c.data);
    var lasting := Lasting(ready, c.reserved, c.data, c.reserved);
    ExchangeKeeps(ready, c.reserved, c.data, c.reserved, c.current);
    var cleared := Cleared(ready, c.data);
    assert cleared.trees == lasting.trees && lasting.archives == cleared.archives - {Temporary(c.reserved)};
    if p :| At(cleared.archives, p, c.current) {
      assert p == Temporary(c.reserved) || At(lasting.archives, p, c.current);
    }
    if p :| At(lasting.archives, p, c.current) {
      assert At(cleared.archives, p, c.current);
    }
    if At(failed.archives, Temporary(c.reserved), c.current) {
      assert At(cleared.archives, Temporary(c.reserved), c.current);
    }
  }

  /** What a return has removed before it unpacks anything. */
  function Cleared(d: Disk, data: string): Disk { d.(trees := d.trees - {Restoring(data), Replaced(data)}) }

  /** A state held elsewhere before the return is held after any rollback of it, complete or not. */
  lemma HeldElsewhereIsKept(before: Disk, failed: Disk, after: Disk, c: Call)
    requires HeldOn(Elsewhere(before, c.data, c.reserved), c.current)
    requires OnlyMoved(before, failed, c.data, c.reserved) && OnlyMoved(failed, after, c.data, c.reserved)
    requires SameAt(before.archives, failed.archives, c.reserved)
    requires c.reserved in failed.archives ==>
               At(after.archives, c.reserved, failed.archives[c.reserved]) || At(after.trees, c.data, failed.archives[c.reserved])
    ensures HeldOn(after, c.current)
  {
    OnlyMovedJoins(before, failed, after, c.data, c.reserved);
    var elsewhere := Elsewhere(before, c.data, c.reserved);
    if p :| At(elsewhere.trees, p, c.current) {
      assert SameAt(before.trees, after.trees, p) && At(after.trees, p, c.current);
    } else {
      var p :| At(elsewhere.archives, p, c.current);
      if p != c.reserved {
        assert SameAt(before.archives, after.archives, p) && At(after.archives, p, c.current);
      }
    }
  }

  // ---- A return effect by effect, and the two that can lose a state to their rollback

  datatype Effect =
    | Clear(path: string)                       // a tree is removed
    | Unpacked(archive: string, path: string)   // a tree is unpacked from an archive
    | Staged(path: string, file: string)        // an archive is made of a tree
    | Renamed(from: string, to: string)         // a tree changes its name
    | PlacedIn(from: string, to: string)        // an archive changes its name
    | Unstaged(file: string)                    // an archive is removed

  /** The disk an effect that succeeds leaves. */
  function After(d: Disk, e: Effect): Disk {
    match e
    case Clear(path) => d.(trees := d.trees - {path})
    case Unpacked(archive, path) => if archive in d.archives then d.(trees := d.trees[path := d.archives[archive]]) else d
    case Staged(path, file) => if path in d.trees then d.(archives := d.archives[file := d.trees[path]]) else d
    case Renamed(from, to) => if from in d.trees then d.(trees := (d.trees - {from})[to := d.trees[from]]) else d
    case PlacedIn(from, to) => if from in d.archives then d.(archives := (d.archives - {from})[to := d.archives[from]]) else d
    case Unstaged(file) => d.(archives := d.archives - {file})
  }

  function Performed(d: Disk, effects: seq<Effect>): Disk
    decreases |effects|
  {
    if effects == [] then d else Performed(After(d, effects[0]), effects[1..])
  }

  function Clearing(data: string): seq<Effect> { [Clear(Restoring(data)), Clear(Replaced(data))] }

  function Unpacking(archive: string, data: string, reserved: string): seq<Effect> {
    Clearing(data) + [Unpacked(archive, Restoring(data)), Staged(data, Temporary(reserved))]
  }

  /** Everything a return does up to the rename that puts the returned data in place, in its order. */
  function PuttingData(archive: string, data: string, reserved: string): seq<Effect> {
    Unpacking(archive, data, reserved) + [Renamed(data, Replaced(data)), Renamed(Restoring(data), data)]
  }

  function Effects(archive: string, data: string, reserved: string): seq<Effect> {
    PuttingData(archive, data, reserved) + [PlacedIn(Temporary(reserved), reserved), Clear(Replaced(data))]
  }

  /** A return whose unpacked data could not be renamed into place: what was staged is taken away. */
  function NotPut(archive: string, data: string, reserved: string): seq<Effect> {
    Unpacking(archive, data, reserved) + [Renamed(data, Replaced(data)), Unstaged(Temporary(reserved))]
  }

  /** A return whose archive could not be renamed into the reserved slot: what was staged is taken away. */
  function CutShort(archive: string, data: string, reserved: string): seq<Effect> {
    PuttingData(archive, data, reserved) + [Unstaged(Temporary(reserved))]
  }

  lemma {:induction false} PerformedInTurn(d: Disk, first: seq<Effect>, second: seq<Effect>)
    ensures Performed(d, first + second) == Performed(Performed(d, first), second)
    decreases |first|
  {
    if first == [] {
      assert first + second == second;
    } else {
      assert (first + second)[1..] == first[1..] + second;
      PerformedInTurn(After(d, first[0]), first[1..], second);
    }
  }

  lemma OneEffect(d: Disk, e: Effect)
    ensures Performed(d, [e]) == After(d, e)
  {
  }

  lemma TwoEffects(d: Disk, e: Effect, f: Effect)
    ensures Performed(d, [e, f]) == After(After(d, e), f)
  {
    assert [e, f][1..] == [f];
    OneEffect(After(d, e), f);
  }

  /** The disk between the data's renames and the slot's. */
  function WithDataPut(d: Disk, archive: string, data: string, reserved: string): Disk
    requires archive in d.archives && data in d.trees
  {
    Disk((d.trees - {Restoring(data)})[Replaced(data) := d.trees[data]][data := d.archives[archive]],
         d.archives[Temporary(reserved) := d.trees[data]])
  }

  lemma DataIsUnpacked(d: Disk, archive: string, data: string, reserved: string)
    requires archive in d.archives && data in d.trees
    ensures Performed(d, Clearing(data)) == d.(trees := d.trees - {Restoring(data), Replaced(data)})
    ensures Performed(d, Unpacking(archive, data, reserved)) ==
              Disk((d.trees - {Replaced(data)})[Restoring(data) := d.archives[archive]], d.archives[Temporary(reserved) := d.trees[data]])
  {
    NamesAreApart(data);
    TwoEffects(d, Clear(Restoring(data)), Clear(Replaced(data)));
    var cleared := d.(trees := d.trees - {Restoring(data), Replaced(data)});
    assert After(After(d, Clear(Restoring(data))), Clear(Replaced(data))).trees == cleared.trees;
    var unpacking := [Unpacked(archive, Restoring(data)), Staged(data, Temporary(reserved))];
    PerformedInTurn(d, Clearing(data), unpacking);
    TwoEffects(cleared, unpacking[0], unpacking[1]);
    assert (d.trees - {Restoring(data), Replaced(data)})[Restoring(data) := d.archives[archive]]
        == (d.trees - {Replaced(data)})[Restoring(data) := d.archives[archive]];
  }

  lemma DataIsPut(d: Disk, archive: string, data: string, reserved: string)
    requires archive in d.archives && data in d.trees
    ensures Performed(d, PuttingData(archive, data, reserved)) == WithDataPut(d, archive, data, reserved)
  {
    NamesAreApart(data);
    DataIsUnpacked(d, archive, data, reserved);
    var renaming := [Renamed(data, Replaced(data)), Renamed(Restoring(data), data)];
    var staged := Performed(d, Unpacking(archive, data, reserved));
    PerformedInTurn(d, Unpacking(archive, data, reserved), renaming);
    TwoEffects(staged, renaming[0], renaming[1]);
    DataIsRenamed(d, staged, archive, data, reserved);
  }

  lemma DataIsRenamed(d: Disk, staged: Disk, archive: string, data: string, reserved: string)
    requires archive in d.archives && data in d.trees
    requires staged == Disk((d.trees - {Replaced(data)})[Restoring(data) := d.archives[archive]], d.archives[Temporary(reserved) := d.trees[data]])
    ensures After(After(staged, Renamed(data, Replaced(data))), Renamed(Restoring(data), data)) == WithDataPut(d, archive, data, reserved)
  {
    NamesAreApart(data);
    var put := WithDataPut(d, archive, data, reserved);
    var aside := (staged.trees - {data})[Replaced(data) := d.trees[data]];
    assert (aside - {Restoring(data)})[data := d.archives[archive]] == put.trees;
  }

  /** The effects of a return, all of them, are the exchange. */
  lemma EffectsExchange(d: Disk, archive: string, data: string, reserved: string)
    requires archive in d.archives && data in d.trees
    ensures Performed(d, Effects(archive, data, reserved)) == Exchanged(d, archive, data, reserved)
  {
    DataIsPut(d, archive, data, reserved);
    var last := [PlacedIn(Temporary(reserved), reserved), Clear(Replaced(data))];
    PerformedInTurn(d, PuttingData(archive, data, reserved), last);
    TwoEffects(WithDataPut(d, archive, data, reserved), last[0], last[1]);
    SlotIsPut(d, archive, data, reserved);
  }

  lemma SlotIsPut(d: Disk, archive: string, data: string, reserved: string)
    requires archive in d.archives && data in d.trees
    ensures After(After(WithDataPut(d, archive, data, reserved), PlacedIn(Temporary(reserved), reserved)), Clear(Replaced(data)))
         == Exchanged(d, archive, data, reserved)
  {
    NamesAreApart(data);
    TemporaryIsApart(reserved);
    var put, exchanged := WithDataPut(d, archive, data, reserved), Exchanged(d, archive, data, reserved);
    assert put.trees - {Replaced(data)} == exchanged.trees;
    assert (put.archives - {Temporary(reserved)})[reserved := d.trees[data]] == exchanged.archives;
  }

  lemma CutShortLeaves(d: Disk, archive: string, data: string, reserved: string)
    requires archive in d.archives && data in d.trees
    ensures Performed(d, CutShort(archive, data, reserved)) ==
              Disk(WithDataPut(d, archive, data, reserved).trees, d.archives - {Temporary(reserved)})
  {
    DataIsPut(d, archive, data, reserved);
    var put := WithDataPut(d, archive, data, reserved);
    PerformedInTurn(d, PuttingData(archive, data, reserved), [Unstaged(Temporary(reserved))]);
    OneEffect(put, Unstaged(Temporary(reserved)));
    assert put.archives - {Temporary(reserved)} == d.archives - {Temporary(reserved)};
  }

  lemma NotPutLeaves(d: Disk, archive: string, data: string, reserved: string)
    requires archive in d.archives && data in d.trees
    ensures Performed(d, NotPut(archive, data, reserved)) ==
              Disk((d.trees - {data})[Restoring(data) := d.archives[archive]][Replaced(data) := d.trees[data]], d.archives - {Temporary(reserved)})
  {
    NamesAreApart(data);
    DataIsUnpacked(d, archive, data, reserved);
    var staged := Performed(d, Unpacking(archive, data, reserved));
    PerformedInTurn(d, Unpacking(archive, data, reserved), [Renamed(data, Replaced(data)), Unstaged(Temporary(reserved))]);
    TwoEffects(staged, Renamed(data, Replaced(data)), Unstaged(Temporary(reserved)));
    assert staged.archives - {Temporary(reserved)} == d.archives - {Temporary(reserved)};
    assert (staged.trees - {data})[Replaced(data) := d.trees[data]]
        == (d.trees - {data})[Restoring(data) := d.archives[archive]][Replaced(data) := d.trees[data]];
  }

  /** The call a return of these paths makes of a disk. */
  function CallOn(d: Disk, archive: string, data: string, reserved: string): Call
    requires archive in d.archives && data in d.trees
  {
    Call(data, archive, reserved, d.trees[data], d.archives[archive])
  }

  lemma CutShortIsAside(d: Disk, failed: Disk, archive: string, data: string, reserved: string)
    requires archive in d.archives && data in d.trees && archive != Temporary(reserved)
    requires failed == Disk(WithDataPut(d, archive, data, reserved).trees, d.archives - {Temporary(reserved)})
    ensures AsideOnly(d, failed, CallOn(d, archive, data, reserved)) && Preserved(failed, CallOn(d, archive, data, reserved))
    ensures OnlyMoved(d, failed, data, reserved) && data in failed.trees
  {
    NamesAreApart(data);
    TemporaryIsApart(reserved);
  }

  lemma NotPutIsAside(d: Disk, failed: Disk, archive: string, data: string, reserved: string)
    requires archive in d.archives && data in d.trees && archive != Temporary(reserved)
    requires failed == Disk((d.trees - {data})[Restoring(data) := d.archives[archive]][Replaced(data) := d.trees[data]], d.archives - {Temporary(reserved)})
    ensures AsideOnly(d, failed, CallOn(d, archive, data, reserved)) && Preserved(failed, CallOn(d, archive, data, reserved))
    ensures OnlyMoved(d, failed, data, reserved) && data !in failed.trees
  {
    NamesAreApart(data);
    TemporaryIsApart(reserved);
  }

  /** The rollback of a return, effect by effect, from the disk an ensured data directory leaves. */
  lemma RollbackByEffects(failed: Disk, data: string, reserved: string)
    requires reserved in failed.archives
    ensures var ready := Ensured(failed, data);
            && Performed(ready, Clearing(data)) == Cleared(ready, data)
            && Performed(ready, Effects(reserved, data, reserved)) == Exchanged(ready, reserved, data, reserved)
  {
    DataIsUnpacked(Ensured(failed, data), reserved, data, reserved);
    EffectsExchange(Ensured(failed, data), reserved, data, reserved);
  }

  /**
   * The first of the two runs that can lose a state: the archive of it could not be renamed into
   * its slot, and the rollback cleared the `.replaced` name. Whether that rollback then succeeds or
   * fails at once, the state is held afterwards exactly when it was held elsewhere to begin with.
   */
  lemma CutShortThenRollback(d: Disk, archive: string, data: string, reserved: string)
    requires archive in d.archives && data in d.trees && reserved in d.archives && archive != Temporary(reserved)
    ensures var failed := Performed(d, CutShort(archive, data, reserved));
            var ready, elsewhere := Ensured(failed, data), Elsewhere(d, data, reserved);
            && AsideOnly(d, failed, CallOn(d, archive, data, reserved)) && Preserved(failed, CallOn(d, archive, data, reserved))
            && (HeldOn(Performed(ready, Clearing(data)), d.trees[data]) <==> HeldOn(elsewhere, d.trees[data]))
            && (HeldOn(Performed(ready, Effects(reserved, data, reserved)), d.trees[data]) <==> HeldOn(elsewhere, d.trees[data]))
  {
    TemporaryIsApart(reserved);
    var failed := Performed(d, CutShort(archive, data, reserved));
    CutShortLeaves(d, archive, data, reserved);
    CutShortIsAside(d, failed, archive, data, reserved);
    AsideThenRollback(d, failed, CallOn(d, archive, data, reserved));
    RollbackByEffects(failed, data, reserved);
  }

  /**
   * The second: the unpacked data could not be renamed into place, so that no data directory is
   * left but the empty one the rollback makes. An empty state is then held all the same.
   */
  lemma NotPutThenRollback(d: Disk, archive: string, data: string, reserved: string)
    requires archive in d.archives && data in d.trees && reserved in d.archives && archive != Temporary(reserved)
    ensures var failed := Performed(d, NotPut(archive, data, reserved));
            var ready, kept := Ensured(failed, data), d.trees[data] == Whole("") || HeldOn(Elsewhere(d, data, reserved), d.trees[data]);
            && AsideOnly(d, failed, CallOn(d, archive, data, reserved)) && Preserved(failed, CallOn(d, archive, data, reserved))
            && (HeldOn(Performed(ready, Clearing(data)), d.trees[data]) <==> kept)
            && (HeldOn(Performed(ready, Effects(reserved, data, reserved)), d.trees[data]) <==> kept)
  {
    TemporaryIsApart(reserved);
    var failed := Performed(d, NotPut(archive, data, reserved));
    NotPutLeaves(d, archive, data, reserved);
    NotPutIsAside(d, failed, archive, data, reserved);
    AsideThenRollback(d, failed, CallOn(d, archive, data, reserved));
    RollbackByEffects(failed, data, reserved);
  }

  /** Such a machine: one directory, one ordinary slot, and a reserved slot of an earlier return. */
  const WITNESS := Disk(map["d" := Whole("current")], map["s/a" := Whole("wanted"), "s/r" := Whole("stale")])

  lemma NothingIsElsewhere()
    ensures "s/a" != Temporary("s/r") && !HeldOn(Elsewhere(WITNESS, "d", "s/r"), Whole("current"))
  {
    assert |"s/a"| == 3 && |Temporary("s/r")| == 7;
    var elsewhere := Elsewhere(WITNESS, "d", "s/r");
    assert forall p :: p in elsewhere.trees ==> p in WITNESS.trees && p != "d";
    assert forall p :: p in elsewhere.archives ==> p == "s/a" || p == "s/r";
  }

  /** Either run loses the state there, which the failed return had kept under its temporary name. */
  lemma RollbackCanLoseTheReplacedState()
    ensures var failed := Performed(WITNESS, CutShort("s/a", "d", "s/r"));
            HeldOn(failed, Whole("current")) && !HeldOn(Performed(Ensured(failed, "d"), Effects("s/r", "d", "s/r")), Whole("current"))
    ensures var failed := Performed(WITNESS, NotPut("s/a", "d", "s/r"));
            HeldOn(failed, Whole("current")) && !HeldOn(Performed(Ensured(failed, "d"), Effects("s/r", "d", "s/r")), Whole("current"))
  {
    NothingIsElsewhere();
    CutShortThenRollback(WITNESS, "s/a", "d", "s/r");
    NotPutThenRollback(WITNESS, "s/a", "d", "s/r");
    assert At(Performed(WITNESS, CutShort("s/a", "d", "s/r")).trees, Replaced("d"), Whole("current"));
    assert At(Performed(WITNESS, NotPut("s/a", "d", "s/r")).trees, Replaced("d"), Whole("current"));
    assert Whole("current") != Whole("") by { assert |"current"| == 7; }
  }
}
