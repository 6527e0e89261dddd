/** The Controller's history of launches: one conclusion per launch, and a bound per machine. */
module Dispatch {

  const MAX_RECORDS_PER_MACHINE := 32

  datatype Stage = InFlight | NotLaunched | MachineRefused | Reported | LaunchedUnreported

  /** How a launch ended: the machine's sentence, the Controller's own, or what a report established. */
  datatype Conclusion = Conclusion(stage: Stage, sentence: string, observation: string, changed: bool, outcome: string)

  const NOTHING_YET := Conclusion(InFlight, "", "", false, "")

  /** `launch` is everything the approved plan and its position say of the launch. */
  datatype Record = Record(digest: string, machine: string, launch: string, acceptedAt: nat, expiresAt: nat, conclusion: Conclusion, finishedAt: nat) {
    predicate Terminal() { !conclusion.stage.InFlight? }
  }

  // ---- Trimming

  function TerminalsOf(records: seq<Record>, machine: string): nat {
    if records == [] then 0
    else (if records[0].Terminal() && records[0].machine == machine then 1 else 0) + TerminalsOf(records[1..], machine)
  }

  /** A record stays while it is open, or while fewer than the bound of its machine ended after it. */
  predicate Stays(r: Record, later: seq<Record>) {
    !r.Terminal() || TerminalsOf(later, r.machine) < MAX_RECORDS_PER_MACHINE
  }

  /** What trimming leaves, in the order it was. */
  function Kept(records: seq<Record>): seq<Record> {
    if records == [] then []
    else if Stays(records[0], records[1..]) then [records[0]] + Kept(records[1..])
    else Kept(records[1..])
  }

  function Reversed(records: seq<Record>): seq<Record> {
    if records == [] then [] else Reversed(records[1..]) + [records[0]]
  }

  function Placed(r: Record, sorted: seq<Record>): seq<Record> {
    if sorted == [] || r.acceptedAt <= sorted[0].acceptedAt then [r] + sorted else [sorted[0]] + Placed(r, sorted[1..])
  }

  /** The stable order sort.SliceStable gives: by acceptance, and as they came where that is equal. */
  function SortedByAcceptance(records: seq<Record>): seq<Record> {
    if records == [] then [] else Placed(records[0], SortedByAcceptance(records[1..]))
  }

  function Bounded(records: seq<Record>): seq<Record> { SortedByAcceptance(Reversed(Kept(records))) }

  predicate InOrder(records: seq<Record>) {
    |records| > 1 ==> records[0].acceptedAt <= records[1].acceptedAt && InOrder(records[1..])
  }

  function Least(a: nat, b: nat): nat { if a < b then a else b }

  lemma {:induction false} KeptCounts(records: seq<Record>, machine: string)
    ensures TerminalsOf(Kept(records), machine) == Least(TerminalsOf(records, machine), MAX_RECORDS_PER_MACHINE)
  {
    if records != [] {
      KeptCounts(records[1..], machine);
      if Stays(records[0], records[1..]) {
        assert Kept(records)[1..] == Kept(records[1..]);
      }
    }
  }

  /** Nothing is altered, nothing is invented, and everything that is open is kept, as often as it was there. */
  lemma {:induction false} KeptIsUntouched(records: seq<Record>, r: Record)
    ensures multiset(Kept(records))[r] <= multiset(records)[r]
    ensures !r.Terminal() ==> multiset(Kept(records))[r] == multiset(records)[r]
  {
    if records != [] {
      KeptIsUntouched(records[1..], r);
      assert records == [records[0]] + records[1..];
    }
  }

  lemma {:induction false} Reversing(records: seq<Record>)
    ensures multiset(Reversed(records)) == multiset(records)
  {
    if records != [] {
      Reversing(records[1..]);
      assert records == [records[0]] + records[1..];
    }
  }

  lemma {:induction false} Placing(r: Record, sorted: seq<Record>)
    requires InOrder(sorted)
    ensures InOrder(Placed(r, sorted)) && multiset(Placed(r, sorted)) == multiset(sorted) + multiset{r}
    ensures Placed(r, sorted)[0] == r || (sorted != [] && Placed(r, sorted)[0] == sorted[0])
  {
    if sorted != [] {
      assert sorted == [sorted[0]] + sorted[1..];
      if r.acceptedAt > sorted[0].acceptedAt {
        Placing(r, sorted[1..]);
        assert Placed(r, sorted)[1..] == Placed(r, sorted[1..]);
      } else {
        assert Placed(r, sorted)[1..] == sorted;
      }
    }
  }

  lemma {:induction false} Sorting(records: seq<Record>)
    ensures InOrder(SortedByAcceptance(records)) && multiset(SortedByAcceptance(records)) == multiset(records)
  {
    if records != [] {
      Sorting(records[1..]);
      Placing(records[0], SortedByAcceptance(records[1..]));
      assert records == [records[0]] + records[1..];
    }
  }

  lemma {:induction false} CountedAtTheEnd(records: seq<Record>, r: Record, machine: string)
    ensures TerminalsOf(records + [r], machine) == TerminalsOf(records, machine) + TerminalsOf([r], machine)
  {
    if records == [] {
      assert [] + [r] == [r];
    } else {
      assert (records + [r])[1..] == records[1..] + [r];
      CountedAtTheEnd(records[1..], r, machine);
    }
  }

  lemma {:induction false} CountedReversed(records: seq<Record>, machine: string)
    ensures TerminalsOf(Reversed(records), machine) == TerminalsOf(records, machine)
  {
    if records != [] {
      CountedReversed(records[1..], machine);
      CountedAtTheEnd(Reversed(records[1..]), records[0], machine);
    }
  }

  lemma {:induction false} CountedPlaced(r: Record, sorted: seq<Record>, machine: string)
    ensures TerminalsOf(Placed(r, sorted), machine) == TerminalsOf(sorted, machine) + TerminalsOf([r], machine)
  {
    if sorted == [] || r.acceptedAt <= sorted[0].acceptedAt {
      assert Placed(r, sorted)[1..] == sorted;
    } else {
      CountedPlaced(r, sorted[1..], machine);
      assert Placed(r, sorted)[1..] == Placed(r, sorted[1..]);
    }
  }

  lemma {:induction false} CountedSorted(records: seq<Record>, machine: string)
    ensures TerminalsOf(SortedByAcceptance(records), machine) == TerminalsOf(records, machine)
  {
    if records != [] {
      CountedSorted(records[1..], machine);
      CountedPlaced(records[0], SortedByAcceptance(records[1..]), machine);
    }
  }

  /** After bounding: in order, min(32, n) ended records of each machine, every open one, and nothing new. */
  lemma BoundedKeeps(records: seq<Record>, machine: string, r: Record)
    ensures InOrder(Bounded(records))
    ensures TerminalsOf(Bounded(records), machine) == Least(TerminalsOf(records, machine), MAX_RECORDS_PER_MACHINE)
    ensures multiset(Bounded(records))[r] <= multiset(records)[r]
    ensures !r.Terminal() ==> multiset(Bounded(records))[r] == multiset(records)[r]
  {
    Sorting(Reversed(Kept(records)));
    Reversing(Kept(records));
    KeptIsUntouched(records, r);
    KeptCounts(records, machine);
    CountedReversed(Kept(records), machine);
    CountedSorted(Reversed(Kept(records)), machine);
  }

  lemma OneMoreKept(r: Record, kept: seq<Record>)
    ensures Reversed([r] + kept) == Reversed(kept) + [r]
  {
    assert ([r] + kept)[1..] == kept;
  }

  /** The sweep of boundDispatchRecords: from the newest end, counting what ended per machine. */
  method BoundDispatchRecords(records: seq<Record>) returns (kept: seq<Record>)
    ensures kept == Bounded(records)
  {
    var perMachine: map<string, nat> := map[];
    kept := [];
    for index := |records| downto 0
      invariant kept == Reversed(Kept(records[index..]))
      invariant forall m :: (if m in perMachine then perMachine[m] else 0) == Least(TerminalsOf(records[index..], m), MAX_RECORDS_PER_MACHINE)
    {
      var record := records[index];
      assert records[index..][1..] == records[index + 1..];
      OneMoreKept(record, Kept(records[index + 1..]));
      var ended := if record.machine in perMachine then perMachine[record.machine] else 0;
      if record.Terminal() && ended < MAX_RECORDS_PER_MACHINE {
        perMachine := perMachine[record.machine := ended + 1];
      }
      if !record.Terminal() || ended < MAX_RECORDS_PER_MACHINE {
        kept := kept + [record];
      }
    }
    assert records[0..] == records;
    kept := SortedByAcceptance(kept);
  }

  // ---- Which records leave

  /** Along the list, what has ended was accepted in order. */
  predicate EndedInOrder(records: seq<Record>) {
    records != [] ==>
      && EndedInOrder(records[1..])
      && (records[0].Terminal() ==> forall r :: r in records[1..] && r.Terminal() ==> records[0].acceptedAt <= r.acceptedAt)
  }

  lemma {:induction false} InOrderThroughout(records: seq<Record>)
    requires InOrder(records)
    ensures EndedInOrder(records)
    ensures forall r :: r in records ==> records[0].acceptedAt <= r.acceptedAt
  {
    if |records| > 1 {
      InOrderThroughout(records[1..]);
      assert forall r :: r in records[1..] ==> records[0].acceptedAt <= records[1].acceptedAt <= r.acceptedAt;
    }
  }

  lemma {:induction false} AnOpenOneMore(records: seq<Record>, open: Record)
    requires EndedInOrder(records) && !open.Terminal()
    ensures EndedInOrder(records + [open])
  {
    if records == [] {
      assert ([] + [open])[1..] == [];
    } else {
      assert (records + [open])[1..] == records[1..] + [open];
      AnOpenOneMore(records[1..], open);
    }
  }

  lemma {:induction false} KeptCameFromThere(records: seq<Record>)
    ensures forall r :: r in Kept(records) ==> r in records
  {
    if records != [] {
      KeptCameFromThere(records[1..]);
    }
  }

  lemma {:induction false} FewerFurtherOn(records: seq<Record>, i: nat, machine: string)
    requires i <= |records|
    ensures TerminalsOf(records[i..], machine) <= TerminalsOf(records, machine)
    decreases i
  {
    if i > 0 {
      FewerFurtherOn(records[1..], i - 1, machine);
      assert records[1..][i - 1..] == records[i..];
    } else {
      assert records[0..] == records;
    }
  }

  /** A record that leaves is no later than any of the thirty-two of its machine that stay. */
  lemma {:induction false} KeptAreTheLatest(records: seq<Record>, i: nat)
    requires EndedInOrder(records) && i < |records| && !Stays(records[i], records[i + 1..])
    ensures forall r :: r in Kept(records) && r.Terminal() && r.machine == records[i].machine ==> records[i].acceptedAt <= r.acceptedAt
    ensures TerminalsOf(Kept(records), records[i].machine) == MAX_RECORDS_PER_MACHINE
    decreases i
  {
    KeptCounts(records, records[i].machine);
    assert records[i..][1..] == records[i + 1..];
    FewerFurtherOn(records, i, records[i].machine);
    KeptCameFromThere(records[1..]);
    if i > 0 {
      KeptAreTheLatest(records[1..], i - 1);
      FewerFurtherOn(records[1..], i - 1, records[i].machine);
      assert records[1..][i - 1..] == records[i..] && records[1..][i..] == records[i + 1..];
    }
  }

  lemma BoundedHolds(records: seq<Record>)
    ensures multiset(Bounded(records)) == multiset(Kept(records))
  {
    Sorting(Reversed(Kept(records)));
    Reversing(Kept(records));
  }

  /** A record that is there less often than before left from some place of the list. */
  lemma {:induction false} SomeOfItLeft(records: seq<Record>, r: Record) returns (i: nat)
    requires multiset(Kept(records))[r] < multiset(records)[r]
    ensures i < |records| && records[i] == r && !Stays(records[i], records[i + 1..])
    decreases |records|
  {
    var first, more := records[0], records[1..];
    assert records == [first] + more;
    if first == r && !Stays(first, more) {
      i := 0;
    } else {
      i := SomeOfItLeft(more, r);
      assert more[i + 1..] == records[i + 2..];
      i := i + 1;
    }
  }

  /** What left of a machine was accepted no later than anything that ended and stays of it. */
  ghost predicate OldestLeave(before: seq<Record>, after: seq<Record>) {
    forall gone: Record, kept: Record ::
      multiset(after)[gone] < multiset(before)[gone] && kept in after && kept.Terminal() && kept.machine == gone.machine ==>
        gone.acceptedAt <= kept.acceptedAt
  }

  lemma BoundingDropsTheOldest(records: seq<Record>)
    requires EndedInOrder(records)
    ensures OldestLeave(records, Bounded(records))
  {
    BoundedHolds(records);
    forall gone: Record, kept: Record |
      multiset(Bounded(records))[gone] < multiset(records)[gone] && kept in Bounded(records) && kept.Terminal() && kept.machine == gone.machine
      ensures gone.acceptedAt <= kept.acceptedAt
    {
      var i := SomeOfItLeft(records, gone);
      assert multiset(Bounded(records))[kept] > 0 && kept in multiset(Kept(records)) && kept in Kept(records);
      KeptAreTheLatest(records, i);
    }
  }

  predicate Holds(records: seq<Record>, digest: string) { exists r :: r in records && r.digest == digest }

  /** Some record of this digest is open, or fewer than thirty-two that ended of its machine follow it. */
  predicate StaysKnown(records: seq<Record>, digest: string) {
    exists i :: 0 <= i < |records| && records[i].digest == digest && Stays(records[i], records[i + 1..])
  }

  lemma {:induction false} KeptHoldsIff(records: seq<Record>, digest: string)
    ensures Holds(Kept(records), digest) <==> StaysKnown(records, digest)
    decreases |records|
  {
    if records != [] {
      var first, more := records[0], records[1..];
      KeptHoldsIff(more, digest);
      if StaysKnown(more, digest) {
        var i :| 0 <= i < |more| && more[i].digest == digest && Stays(more[i], more[i + 1..]);
        assert more[i + 1..] == records[i + 2..];
        assert records[i + 1].digest == digest && Stays(records[i + 1], records[i + 1 + 1..]);
        var r :| r in Kept(more) && r.digest == digest;
        assert r in Kept(records);
      }
      if StaysKnown(records, digest) {
        var i :| 0 <= i < |records| && records[i].digest == digest && Stays(records[i], records[i + 1..]);
        if i == 0 {
          assert Kept(records)[0] == first;
        } else {
          assert more[i - 1] == records[i] && more[i - 1 + 1..] == records[i + 1..];
          assert StaysKnown(more, digest);
        }
      }
    }
  }

  /**
   * What AlreadySpent still knows after a bounding: a digest is found exactly when one of its
   * records is open, or is followed by fewer than thirty-two ended ones of its machine.
   */
  lemma StillSpentIff(records: seq<Record>, digest: string)
    ensures Holds(Bounded(records), digest) <==> StaysKnown(records, digest)
  {
    BoundedHolds(records);
    KeptHoldsIff(records, digest);
    forall r: Record ensures r in Bounded(records) <==> r in Kept(records) {
      assert r in multiset(Bounded(records)) <==> r in multiset(Kept(records));
    }
  }

  /** Launches of one machine that all ended, accepted one instant after the other. */
  function Ended(count: nat): seq<Record> {
    seq(count, i requires 0 <= i < count => Record(Digest(i), "machine", "", i + 1, i + 2, NOTHING_YET.(stage := Reported), i + 2))
  }

  function Digest(i: nat): string { if i == 0 then "" else "d" + Digest(i - 1) }

  lemma {:induction false} DigestsDiffer(i: nat)
    ensures |Digest(i)| == i
  {
    if i > 0 {
      DigestsDiffer(i - 1);
    }
  }

  lemma {:induction false} EndedAreCounted(records: seq<Record>, machine: string)
    requires forall r :: r in records ==> r.Terminal() && r.machine == machine
    ensures TerminalsOf(records, machine) == |records|
  {
    if records != [] {
      EndedAreCounted(records[1..], machine);
    }
  }

  /** The thirty-third launch that ended makes the first one's digest unknown again. */
  lemma AForgottenDigest()
    ensures var launches := Ended(MAX_RECORDS_PER_MACHINE + 1);
            InOrder(launches) && Holds(launches, launches[0].digest) && !Holds(Bounded(launches), launches[0].digest)
  {
    var launches := Ended(MAX_RECORDS_PER_MACHINE + 1);
    EndedAreInOrder(launches);
    assert launches[0] in launches;
    EndedAreCounted(launches[1..], "machine");
    forall i | 0 <= i < |launches| ensures |launches[i].digest| == i {
      DigestsDiffer(i);
    }
    StillSpentIff(launches, launches[0].digest);
  }

  lemma {:induction false} EndedAreInOrder(records: seq<Record>)
    requires forall i :: 0 < i < |records| ==> records[i - 1].acceptedAt <= records[i].acceptedAt
    ensures InOrder(records)
  {
    if |records| > 1 {
      assert records[0].acceptedAt <= records[1].acceptedAt;
      forall i | 0 < i < |records[1..]| ensures records[1..][i - 1].acceptedAt <= records[1..][i].acceptedAt {
        assert records[i + 1 - 1].acceptedAt <= records[i + 1].acceptedAt;
      }
      EndedAreInOrder(records[1..]);
    }
  }

  /** A record rewritten in place, accepted when it was, leaves the list in order. */
  lemma {:induction false} RewrittenInOrder(records: seq<Record>, i: nat, r: Record)
    requires InOrder(records) && i < |records| && r.acceptedAt == records[i].acceptedAt
    ensures InOrder(records[i := r])
    decreases |records|
  {
    if |records| > 1 {
      if i > 0 {
        RewrittenInOrder(records[1..], i - 1, r);
        assert records[i := r][1..] == records[1..][i - 1 := r];
      } else {
        assert records[i := r][1..] == records[1..];
      }
    }
  }
}
