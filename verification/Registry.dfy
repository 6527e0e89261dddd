/** The durable store around the history of launches: accepting, concluding, and opening it again. */
module Registry {
  import opened Wrappers
  import opened Dispatch

  const MAX_SENTENCE_BYTES := 512
  const MAX_OBSERVATION_BYTES := 256

  datatype Answer = Done | Refused | NotWritten

  /** How a record spells its digest, its machine and its launch. */
  type Shape = (string, string, string) -> bool

  /** What one record must be; its spelling is the parameter. */
  predicate RecordValid(shape: Shape, r: Record) {
    && shape(r.digest, r.machine, r.launch)
    && 0 < r.acceptedAt < r.expiresAt
    && |r.conclusion.sentence| <= MAX_SENTENCE_BYTES && |r.conclusion.observation| <= MAX_OBSERVATION_BYTES
    && (r.conclusion.sentence == "" || r.conclusion.observation == "")
    && (!r.Terminal() ==> r.finishedAt == 0)
  }

  /** Named one by one: the bounds of both sentences, one of them at most, and no end before the end. */
  lemma RecordValidIff(shape: Shape, r: Record)
    ensures RecordValid(shape, r) <==>
              && shape(r.digest, r.machine, r.launch) && 1 <= r.acceptedAt && r.acceptedAt < r.expiresAt
              && |r.conclusion.sentence| < 513 && |r.conclusion.observation| < 257
              && !(r.conclusion.sentence != "" && r.conclusion.observation != "")
              && (r.conclusion.stage == InFlight ==> r.finishedAt == 0)
  {
  }

  predicate OpenOnce(records: seq<Record>) {
    forall i, j :: 0 <= i < j < |records| && !records[i].Terminal() && !records[j].Terminal() ==> records[i].digest != records[j].digest
  }

  predicate Validates(shape: Shape, records: seq<Record>) {
    (forall i :: 0 <= i < |records| ==> RecordValid(shape, records[i])) && OpenOnce(records)
  }

  /** What the store holds between two operations. */
  ghost predicate History(shape: Shape, records: seq<Record>) {
    Validates(shape, records) && InOrder(records)
  }

  /** Each machine keeps as many ended records as it had, up to the bound. */
  ghost predicate WithinBound(before: seq<Record>, after: seq<Record>) {
    forall m: string :: TerminalsOf(after, m) == Least(TerminalsOf(before, m), MAX_RECORDS_PER_MACHINE)
  }

  /** The record a digest is concluded on: the first that holds it. */
  ghost predicate FirstWith(records: seq<Record>, digest: string, i: int) {
    0 <= i < |records| && records[i].digest == digest && forall j :: 0 <= j < i ==> records[j].digest != digest
  }

  function Concluded(r: Record, conclusion: Conclusion, finishedAt: nat): Record {
    r.(conclusion := conclusion, finishedAt := finishedAt)
  }

  function Requalified(r: Record): Record {
    if r.Terminal() then r else r.(conclusion := r.conclusion.(stage := LaunchedUnreported))
  }

  function AllRequalified(records: seq<Record>): seq<Record> {
    seq(|records|, i requires 0 <= i < |records| => Requalified(records[i]))
  }

  /** Nothing open is lost and nothing ended is altered: only `closed` left its openness, as `ended`. */
  ghost predicate OnlyCloses(before: seq<Record>, after: seq<Record>, closed: Record, ended: Record) {
    && (forall r: Record :: !r.Terminal() ==> multiset(after)[r] + (if r == closed then 1 else 0) == multiset(before)[r])
    && (forall r: Record :: r.Terminal() ==> multiset(after)[r] <= multiset(before)[r] + (if r == ended then 1 else 0))
  }

  ghost predicate OnlyOpens(before: seq<Record>, after: seq<Record>, begun: Record) {
    && (forall r: Record :: !r.Terminal() ==> multiset(after)[r] == multiset(before)[r] + (if r == begun then 1 else 0))
    && (forall r: Record :: r.Terminal() ==> multiset(after)[r] <= multiset(before)[r])
  }

  lemma BoundedIsInOrder(records: seq<Record>)
    ensures InOrder(Bounded(records)) && WithinBound(records, Bounded(records))
  {
    Sorting(Reversed(Kept(records)));
    forall m: string ensures TerminalsOf(Bounded(records), m) == Least(TerminalsOf(records, m), MAX_RECORDS_PER_MACHINE) {
      BoundedKeeps(records, m, Record("", "", "", 0, 0, NOTHING_YET, 0));
    }
  }

  lemma AppendingOpens(records: seq<Record>, begun: Record)
    requires !begun.Terminal()
    ensures OnlyOpens(records, Bounded(records + [begun]), begun)
  {
    forall r: Record ensures multiset(Bounded(records + [begun]))[r] <= multiset(records + [begun])[r]
        && (!r.Terminal() ==> multiset(Bounded(records + [begun]))[r] == multiset(records + [begun])[r]) {
      BoundedKeeps(records + [begun], "", r);
    }
    assert multiset(records + [begun]) == multiset(records) + multiset{begun};
  }

  lemma RewrittenCounts(records: seq<Record>, i: nat, ended: Record, r: Record)
    requires i < |records| && records[i] != ended
    ensures multiset(records[i := ended])[r] + (if r == records[i] then 1 else 0) == multiset(records)[r] + (if r == ended then 1 else 0)
  {
    var before, after := records[..i], records[i + 1..];
    assert records == before + [records[i]] + after;
    assert records[i := ended] == before + [ended] + after;
  }

  lemma ConcludingCloses(records: seq<Record>, i: nat, ended: Record)
    requires i < |records| && !records[i].Terminal() && ended.Terminal()
    ensures OnlyCloses(records, Bounded(records[i := ended]), records[i], ended)
  {
    forall r: Record ensures
        (if r.Terminal() then multiset(Bounded(records[i := ended]))[r] <= multiset(records)[r] + (if r == ended then 1 else 0)
         else multiset(Bounded(records[i := ended]))[r] + (if r == records[i] then 1 else 0) == multiset(records)[r]) {
      BoundedKeeps(records[i := ended], "", r);
      RewrittenCounts(records, i, ended, r);
    }
  }

  /** What a bounded history forgets, and what it still answers to. */
  ghost predicate Forgets(before: seq<Record>, after: seq<Record>) {
    OldestLeave(before, after) && forall d: string :: Holds(after, d) <==> StaysKnown(before, d)
  }

  lemma BoundingForgets(records: seq<Record>)
    requires EndedInOrder(records)
    ensures Forgets(records, Bounded(records))
  {
    BoundingDropsTheOldest(records);
    forall d: string ensures Holds(Bounded(records), d) <==> StaysKnown(records, d) {
      StillSpentIff(records, d);
    }
  }

  // ---- Which histories are refused

  /** An open record, and a conclusion it may carry. */
  predicate MayConclude(shape: Shape, r: Record, conclusion: Conclusion, finishedAt: nat) {
    !r.Terminal() && !conclusion.stage.InFlight? && RecordValid(shape, Concluded(r, conclusion, finishedAt))
  }

  /** No open record is there twice, and no two of them carry one digest. */
  ghost predicate EachOpenOnce(records: multiset<Record>) {
    forall a, b :: a in records && b in records && !a.Terminal() && !b.Terminal() && a.digest == b.digest ==> a == b && records[a] == 1
  }

  lemma {:induction false} HeldTwice(records: seq<Record>, r: Record) returns (i: nat, j: nat)
    requires multiset(records)[r] >= 2
    ensures i < j < |records| && records[i] == records[j] == r
    decreases |records|
  {
    var first, more := records[0], records[1..];
    assert records == [first] + more;
    if first == r {
      assert r in multiset(more);
      i := 0;
      j :| 0 <= j < |more| && more[j] == r;
      j := j + 1;
    } else {
      i, j := HeldTwice(more, r);
      i, j := i + 1, j + 1;
    }
  }

  lemma OpenOnceIff(records: seq<Record>)
    ensures OpenOnce(records) <==> EachOpenOnce(multiset(records))
  {
    var held := multiset(records);
    if OpenOnce(records) {
      forall a, b | a in held && b in held && !a.Terminal() && !b.Terminal() && a.digest == b.digest ensures a == b && held[a] == 1 {
        var i :| 0 <= i < |records| && records[i] == a;
        var j :| 0 <= j < |records| && records[j] == b;
        assert i == j;
        if held[a] >= 2 {
          var k, l := HeldTwice(records, a);
          assert false;
        }
      }
    }
    if EachOpenOnce(held) {
      forall i, j | 0 <= i < j < |records| && !records[i].Terminal() && !records[j].Terminal()
        ensures records[i].digest != records[j].digest
      {
        if records[i].digest == records[j].digest {
          assert records[i] in held && records[j] in held;
          TwiceIsTwo(records, i, j);
        }
      }
    }
  }

  lemma TwiceIsTwo(records: seq<Record>, i: nat, j: nat)
    requires i < j < |records| && records[i] == records[j]
    ensures multiset(records)[records[i]] >= 2
  {
    assert records == records[..j] + records[j..];
    assert records[i] in records[..j] && records[..j][i] == records[i] && records[j..][0] == records[j];
  }

  /** Trimming a history whose records are all valid leaves one that validates. */
  lemma BoundedValidates(shape: Shape, records: seq<Record>)
    requires Validates(shape, records)
    ensures Validates(shape, Bounded(records))
  {
    var after := Bounded(records);
    OpenOnceIff(records);
    OpenOnceIff(after);
    forall r: Record ensures multiset(after)[r] <= multiset(records)[r] {
      BoundedKeeps(records, "", r);
    }
    forall i | 0 <= i < |after| ensures RecordValid(shape, after[i]) {
      assert after[i] in multiset(after) && after[i] in multiset(records) && after[i] in records;
    }
  }

  ghost predicate OpenFor(records: seq<Record>, digest: string) {
    exists r :: r in records && r.digest == digest && !r.Terminal()
  }

  /** An acceptance is refused for the record itself, or for an open one that carries its digest. */
  lemma AcceptableIff(shape: Shape, records: seq<Record>, begun: Record)
    requires Validates(shape, records) && !begun.Terminal()
    ensures Validates(shape, Bounded(records + [begun])) <==> RecordValid(shape, begun) && !OpenFor(records, begun.digest)
  {
    var with := records + [begun];
    if RecordValid(shape, begun) && !OpenFor(records, begun.digest) {
      forall i, j | 0 <= i < j < |with| && !with[i].Terminal() && !with[j].Terminal() ensures with[i].digest != with[j].digest {
        assert with[i] in records;
      }
      BoundedValidates(shape, with);
    }
    if Validates(shape, Bounded(with)) {
      BoundedKeeps(with, "", begun);
      assert multiset(with) == multiset(records) + multiset{begun};
      assert begun in multiset(Bounded(with)) && begun in Bounded(with);
      OpenOnceIff(Bounded(with));
      forall r | r in records && !r.Terminal() ensures r.digest != begun.digest {
        BoundedKeeps(with, "", r);
        assert r in multiset(Bounded(with));
      }
    }
  }

  /** A conclusion its record may carry is never refused. */
  lemma ConcludableValidates(shape: Shape, records: seq<Record>, i: nat, ended: Record)
    requires Validates(shape, records) && i < |records| && ended.Terminal() && RecordValid(shape, ended)
    ensures Validates(shape, Bounded(records[i := ended]))
  {
    BoundedValidates(shape, records[i := ended]);
  }

  function RecordsOf(records: seq<Record>, machine: string): nat {
    if records == [] then 0 else (if records[0].machine == machine then 1 else 0) + RecordsOf(records[1..], machine)
  }

  /** Opening keeps every record in its place; it trims none, so what was open now counts as ended. */
  lemma {:induction false} Requalifying(records: seq<Record>, machine: string)
    requires InOrder(records)
    ensures InOrder(AllRequalified(records))
    ensures forall i :: 0 <= i < |records| ==> AllRequalified(records)[i].Terminal()
    ensures TerminalsOf(AllRequalified(records), machine) == RecordsOf(records, machine)
  {
    if records != [] {
      Requalifying(records[1..], machine);
      assert AllRequalified(records)[1..] == AllRequalified(records[1..]);
    }
  }

  lemma RequalifiedIsHistory(shape: Shape, records: seq<Record>)
    requires History(shape, records)
    ensures History(shape, AllRequalified(records))
    ensures forall i :: 0 <= i < |records| ==> AllRequalified(records)[i].Terminal()
  {
    Requalifying(records, "");
    var after := AllRequalified(records);
    forall i | 0 <= i < |after| ensures RecordValid(shape, after[i]) {
      assert RecordValid(shape, records[i]);
    }
  }

  class Store {
    const shape: Shape
    const reliable: bool          // on a reliable disk every write is made, and every reading
    var records: seq<Record>
    var file: seq<Record>

    constructor (shape: Shape, reliable: bool)
      ensures Valid() && this.shape == shape && this.reliable == reliable && records == [] && file == []
    {
      this.shape, this.reliable, records, file := shape, reliable, [], [];
    }

    ghost predicate Valid()
      reads this
    {
      History(shape, records) && History(shape, file)
    }

    /** The state never advances before the disk; a write that fails may still have replaced the file. */
    method Commit(candidate: seq<Record>) returns (r: Answer)
      requires Valid() && InOrder(candidate)
      modifies this
      ensures Valid()
      ensures r.Refused? <==> !Validates(shape, candidate)
      ensures records == if r.Done? then candidate else old(records)
      ensures r.Done? ==> file == records
      ensures r.Refused? ==> file == old(file)
      ensures !r.Done? ==> file == old(file) || file == candidate
      ensures reliable ==> !r.NotWritten?
    {
      if !Validates(shape, candidate) {
        return Refused;
      }
      var replaced, ok: bool := *, *;
      replaced, ok := replaced || reliable, ok || reliable;
      if replaced {
        file := candidate;
      }
      if !replaced || !ok {
        return NotWritten;
      }
      records := candidate;
      r := Done;
    }

    /** Accept: an open record is durably there before any connection exists to fail. */
    method Accept(record: Record) returns (r: Answer)
      requires Valid()
      modifies this
      ensures Valid()
      ensures r.Refused? <==> record.Terminal() || !RecordValid(shape, record) || OpenFor(old(records), record.digest)
      ensures !r.Done? ==> records == old(records)
      ensures r.Refused? ==> file == old(file)
      ensures r.NotWritten? ==> file == old(file) || (file == Bounded(old(records) + [record]) && OnlyOpens(old(records), file, record))
      ensures r.Done? ==> records == file == Bounded(old(records) + [record]) && OnlyOpens(old(records), records, record)
      ensures r.Done? ==> WithinBound(old(records) + [record], records)
      ensures r.Done? ==> record in records
      ensures r.Done? ==> Forgets(old(records) + [record], records)
      ensures reliable ==> !r.NotWritten?
    {
      if record.Terminal() {
        return Refused;
      }
      var candidate := BoundDispatchRecords(records + [record]);
      BoundedIsInOrder(records + [record]);
      AppendingOpens(records, record);
      AcceptableIff(shape, records, record);
      InOrderThroughout(records);
      AnOpenOneMore(records, record);
      BoundingForgets(records + [record]);
      r := Commit(candidate);
      assert r.Done? ==> multiset(records)[record] > 0;
    }

    /** Conclude: a launch has one conclusion, and a record that ended is never touched again. */
    method Conclude(digest: string, conclusion: Conclusion, finishedAt: nat) returns (r: Answer)
      requires Valid()
      modifies this
      ensures Valid()
      ensures conclusion.stage.InFlight? || !Holds(old(records), digest) ==> r.Refused?
      ensures forall i :: FirstWith(old(records), digest, i) && old(records)[i].Terminal() ==> r.Refused?
      ensures forall i :: FirstWith(old(records), digest, i) && MayConclude(shape, old(records)[i], conclusion, finishedAt) ==> !r.Refused?
      ensures !r.Done? ==> records == old(records)
      ensures r.Refused? ==> file == old(file)
      ensures r.NotWritten? && file != old(file) ==>
                exists i :: FirstWith(old(records), digest, i) && IsConclusion(old(records), file, i, conclusion, finishedAt)
      ensures r.Done? ==> records == file
      ensures r.Done? ==> exists i :: FirstWith(old(records), digest, i) && IsConclusion(old(records), records, i, conclusion, finishedAt)
      ensures reliable ==> !r.NotWritten?
    {
      if conclusion.stage.InFlight? {
        return Refused;
      }
      for index := 0 to |records|
        invariant forall j :: 0 <= j < index ==> records[j].digest != digest
        invariant records == old(records) && file == old(file)
      {
        var record := records[index];
        if record.digest == digest {
          if record.Terminal() {
            return Refused;
          }
          ghost var before := records;
          var ended := Concluded(record, conclusion, finishedAt);
          var candidate := BoundDispatchRecords(records[index := ended]);
          BoundedIsInOrder(records[index := ended]);
          ConcludingCloses(records, index, ended);
          RewrittenInOrder(records, index, ended);
          InOrderThroughout(records[index := ended]);
          BoundingForgets(records[index := ended]);
          if RecordValid(shape, ended) {
            ConcludableValidates(shape, records, index, ended);
          }
          r := Commit(candidate);
          assert FirstWith(before, digest, index);
          assert IsConclusion(before, candidate, index, conclusion, finishedAt);
          return;
        }
      }
      r := Refused;
    }

    /** AlreadySpent: whether any record held now names these bytes, however it ended. */
    method AlreadySpent(digest: string) returns (spent: bool)
      ensures spent <==> Holds(records, digest)
    {
      for index := 0 to |records|
        invariant forall j :: 0 <= j < index ==> records[j].digest != digest
      {
        if records[index].digest == digest {
          return true;
        }
      }
      spent := false;
    }

    /** Opening again: what the file holds, every launch left open by a cut said to be unreported. */
    method Open() returns (r: Answer)
      requires Valid()
      modifies this
      ensures Valid() && !r.Refused?
      ensures r.Done? ==> records == file == AllRequalified(old(file)) && forall i :: 0 <= i < |records| ==> records[i].Terminal()
      ensures r.Done? ==> forall i :: 0 <= i < |records| && !old(file)[i].Terminal() ==>
                records[i].conclusion.stage == LaunchedUnreported
                && records[i] == old(file)[i].(conclusion := old(file)[i].conclusion.(stage := LaunchedUnreported))
      ensures r.Done? ==> forall i :: 0 <= i < |records| && old(file)[i].Terminal() ==> records[i] == old(file)[i]
      ensures !r.Done? ==> records == old(records) && (file == old(file) || file == AllRequalified(old(file)))
      ensures reliable ==> !r.NotWritten?
    {
      var unreadable: bool := *;
      if unreadable && !reliable {
        return NotWritten;
      }
      var state := file;
      var requalified := false;
      for index := 0 to |state|
        invariant |state| == |file|
        invariant forall i :: 0 <= i < |file| ==> state[i] == if i < index then Requalified(file[i]) else file[i]
        invariant !requalified ==> state == file
      {
        if state[index].conclusion.stage.InFlight? {
          state := state[index := Requalified(state[index])];
          requalified := true;
        }
      }
      assert state == AllRequalified(file);
      RequalifiedIsHistory(shape, file);
      var ok: bool := *;
      ok := ok || reliable;
      if requalified {
        var replaced: bool := *;
        replaced := replaced || reliable;
        if replaced {
          file := state;
        }
        ok := ok && replaced;
      }
      if !ok {
        return NotWritten;
      }
      records := state;
      r := Done;
    }
  }

  /** The history once its record `i` ended: bounded, and nothing else of it touched. */
  ghost predicate IsConclusion(before: seq<Record>, after: seq<Record>, i: nat, conclusion: Conclusion, finishedAt: nat)
    requires i < |before|
  {
    var ended := Concluded(before[i], conclusion, finishedAt);
    && !before[i].Terminal() && ended.Terminal()
    && after == Bounded(before[i := ended]) && OnlyCloses(before, after, before[i], ended)
    && WithinBound(before[i := ended], after) && Forgets(before[i := ended], after)
  }
}
