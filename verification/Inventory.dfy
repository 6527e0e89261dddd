/** The inventory of things a human declared, and the dated readings machines take of them. */
module Inventory {
  import opened Wrappers
  import Order

  const MAX_ELEMENTS := 128
  const MAX_REVISION := 0xFFFF_FFFF_FFFF_FFFF

  datatype Reason = NothingListening | ResponseTooLarge | MachineUnreachable | PortIsManaged

  datatype Reading = Verified | Contradicted | Unverifiable(reason: Reason)

  datatype Observation = Observation(reading: Reading, at: int)

  /** `declared` is what the human chose and what was minted beside it, except the pair it is unique on. */
  datatype Element = Element(id: string, machine: string, port: int, declared: string, observation: Option<Observation>)

  datatype Inventory = Inventory(revision: nat, elements: seq<Element>)

  datatype Outcome = Answered | NoListener | TooLarge | Managed | Unknown

  /** What a Relay snapshot says: per machine, when it was observed and what each port did. */
  datatype MachineReport = MachineReport(observedAt: int, ports: seq<(int, Outcome)>)

  datatype Snapshot = Snapshot(at: int, reports: map<string, Option<MachineReport>>)

  predicate KeyLess(m: string, p: int, n: string, q: int) { if m != n then Order.Less(m, n) else p < q }

  predicate Precedes(e: Element, f: Element) { KeyLess(e.machine, e.port, f.machine, f.port) }

  ghost predicate StrictlySorted(elements: seq<Element>) {
    forall i, j :: 0 <= i < j < |elements| ==> Precedes(elements[i], elements[j])
  }

  ghost predicate UniqueIds(elements: seq<Element>) {
    forall i, j :: 0 <= i < j < |elements| ==> elements[i].id != elements[j].id
  }

  ghost predicate WellKept(inventory: Inventory) {
    && inventory.revision <= MAX_REVISION && |inventory.elements| <= MAX_ELEMENTS
    && StrictlySorted(inventory.elements) && UniqueIds(inventory.elements)
  }

  lemma KeysAreTransitive(m: string, p: int, n: string, q: int, o: string, r: int)
    requires KeyLess(m, p, n, q) && KeyLess(n, q, o, r)
    ensures KeyLess(m, p, o, r)
  {
    if m != n && n != o {
      Order.Transitive(m, n, o);
      Order.Irreflexive(m);
      if m == o {
        Order.Irreflexive(m);
      }
    }
  }

  lemma KeysAreTotal(m: string, p: int, n: string, q: int)
    ensures KeyLess(m, p, n, q) || KeyLess(n, q, m, p) || (m == n && p == q)
    ensures !(KeyLess(m, p, n, q) && KeyLess(n, q, m, p))
  {
    Order.Total(m, n);
    if m != n && Order.Less(m, n) && Order.Less(n, m) {
      Order.Transitive(m, n, m);
      Order.Irreflexive(m);
    }
  }

  /** Where a key is, or where it would go: everything before it is smaller, nothing from it on is. */
  ghost predicate Place(elements: seq<Element>, machine: string, port: int, index: nat) {
    && index <= |elements|
    && (forall i :: 0 <= i < index ==> KeyLess(elements[i].machine, elements[i].port, machine, port))
    && (forall i :: index <= i < |elements| ==> !KeyLess(elements[i].machine, elements[i].port, machine, port))
  }

  /** externalSearch: the halving of sort.Search over a sorted inventory. */
  method ExternalSearch(elements: seq<Element>, machine: string, port: int) returns (index: nat)
    requires StrictlySorted(elements)
    ensures Place(elements, machine, port, index)
  {
    index := 0;
    var high := |elements|;
    while index < high
      invariant 0 <= index <= high <= |elements|
      invariant forall i :: 0 <= i < index ==> KeyLess(elements[i].machine, elements[i].port, machine, port)
      invariant forall i :: high <= i < |elements| ==> !KeyLess(elements[i].machine, elements[i].port, machine, port)
    {
      var middle := (index + high) / 2;
      if KeyLess(elements[middle].machine, elements[middle].port, machine, port) {
        forall i | 0 <= i <= middle ensures KeyLess(elements[i].machine, elements[i].port, machine, port) {
          if i < middle {
            KeysAreTransitive(elements[i].machine, elements[i].port, elements[middle].machine, elements[middle].port, machine, port);
          }
        }
        index := middle + 1;
      } else {
        forall i | middle <= i < |elements| ensures !KeyLess(elements[i].machine, elements[i].port, machine, port) {
          if middle < i && KeyLess(elements[i].machine, elements[i].port, machine, port) {
            KeysAreTransitive(elements[middle].machine, elements[middle].port, elements[i].machine, elements[i].port, machine, port);
          }
        }
        high := middle;
      }
    }
  }

  predicate Declared(elements: seq<Element>, machine: string, port: int) {
    exists i :: 0 <= i < |elements| && elements[i].machine == machine && elements[i].port == port
  }

  /** At its place a key is found at once, or is not in the inventory at all. */
  lemma FoundAtItsPlace(elements: seq<Element>, machine: string, port: int, index: nat)
    requires StrictlySorted(elements) && Place(elements, machine, port, index)
    ensures Declared(elements, machine, port) <==>
              index < |elements| && elements[index].machine == machine && elements[index].port == port
  {
    Order.Irreflexive(machine);
    forall i | index < i < |elements| ensures elements[i].machine != machine || elements[i].port != port {
      assert Precedes(elements[index], elements[i]);
    }
  }

  /** Inserting at the place of an absent key keeps the order; the ids stay unique when the new one is. */
  lemma InsertingKeepsOrder(elements: seq<Element>, e: Element, index: nat)
    requires StrictlySorted(elements) && Place(elements, e.machine, e.port, index) && !Declared(elements, e.machine, e.port)
    ensures StrictlySorted(elements[..index] + [e] + elements[index..])
  {
    var after := elements[..index] + [e] + elements[index..];
    forall i, j | 0 <= i < j < |after| ensures Precedes(after[i], after[j]) {
      if i == index {
        assert after[j] == elements[j - 1];
        KeysAreTotal(e.machine, e.port, elements[j - 1].machine, elements[j - 1].port);
      }
    }
  }

  lemma RemovingKeeps(elements: seq<Element>, index: nat)
    requires index < |elements| && StrictlySorted(elements) && UniqueIds(elements)
    ensures var after := elements[..index] + elements[index + 1..];
            StrictlySorted(after) && UniqueIds(after) && Inserted(after, elements, index, elements[index])
  {
    var after := elements[..index] + elements[index + 1..];
    forall i | 0 <= i < |after| ensures after[i] == elements[if i < index then i else i + 1] {
    }
    assert elements == after[..index] + [elements[index]] + after[index..];
  }

  // ---- What one snapshot concludes of one element

  function ReadingForPort(ports: seq<(int, Outcome)>, port: int): Option<Outcome> {
    if ports == [] then None
    else if ports[0].0 == port then Some(ports[0].1)
    else ReadingForPort(ports[1..], port)
  }

  /** concludeExternalReading: what the snapshot lets be said of an element, if anything. */
  function Concluded(e: Element, s: Snapshot): Option<Observation> {
    if e.machine !in s.reports || s.reports[e.machine].None? then
      if e.observation.None? || e.observation.value.reading == Unverifiable(MachineUnreachable) then None
      else Some(Observation(Unverifiable(MachineUnreachable), s.at))
    else
      var report := s.reports[e.machine].value;
      var outcome := ReadingForPort(report.ports, e.port);
      if outcome.None? || outcome.value.Unknown? then None
      else Some(Observation(ReadingOf(outcome.value, e.observation), report.observedAt))
  }

  /** A port that was seen answering and accepts nothing any more contradicts what was declared. */
  function ReadingOf(outcome: Outcome, before: Option<Observation>): Reading {
    match outcome
    case Answered => Verified
    case TooLarge => Unverifiable(ResponseTooLarge)
    case Managed => Unverifiable(PortIsManaged)
    case _ =>
      if before.Some? && (before.value.reading.Verified? || before.value.reading.Contradicted?) then Contradicted
      else Unverifiable(NothingListening)
  }

  /** What a snapshot says a port did, where the machine was observed and its sheet names the port. */
  function Reported(e: Element, s: Snapshot): Option<Outcome> {
    if e.machine !in s.reports || s.reports[e.machine].None? then None else ReadingForPort(s.reports[e.machine].value.ports, e.port)
  }

  predicate WasObserved(e: Element, s: Snapshot) { e.machine in s.reports && s.reports[e.machine].Some? }

  /** A reading older than the one held is dropped. */
  function Absorbed(e: Element, s: Snapshot): Element {
    var concluded := Concluded(e, s);
    if concluded.None? || (e.observation.Some? && concluded.value.at < e.observation.value.at) then e
    else e.(observation := concluded)
  }

  function AllAbsorbed(elements: seq<Element>, s: Snapshot): seq<Element> {
    seq(|elements|, i requires 0 <= i < |elements| => Absorbed(elements[i], s))
  }

  /** The first report of the port is the one that counts. */
  lemma {:induction false} TheFirstReportCounts(ports: seq<(int, Outcome)>, port: int, i: nat)
    requires i < |ports| && ports[i].0 == port && forall j :: 0 <= j < i ==> ports[j].0 != port
    ensures ReadingForPort(ports, port) == Some(ports[i].1)
    decreases i
  {
    if i > 0 {
      TheFirstReportCounts(ports[1..], port, i - 1);
    }
  }

  predicate WasSeenAnswering(e: Element) { e.observation.Some? && e.observation.value.reading in {Verified, Contradicted} }

  /** Which answer gives which reading, and when it was read. */
  lemma ReadingsSay(e: Element, s: Snapshot)
    requires e.observation.Some? ==> WasObserved(e, s) && e.observation.value.at <= s.reports[e.machine].value.observedAt
    ensures var after, said := Absorbed(e, s).observation, Reported(e, s);
            && (said.Some? && !said.value.Unknown? ==> after.Some? && after.value.at == s.reports[e.machine].value.observedAt)
            && (said == Some(Answered) ==> after.value.reading == Verified)
            && (said == Some(TooLarge) ==> after.value.reading == Unverifiable(ResponseTooLarge))
            && (said == Some(Managed) ==> after.value.reading == Unverifiable(PortIsManaged))
            && (said == Some(NoListener) && WasSeenAnswering(e) ==> after.value.reading == Contradicted)
            && (said == Some(NoListener) && !WasSeenAnswering(e) ==> after.value.reading == Unverifiable(NothingListening))
            && (said.None? || said == Some(Unknown) ==> after == e.observation)
  {
  }

  /** An element that was read is told when its machine can no longer be observed; one that was not stays silent. */
  lemma UnobservedSays(e: Element, s: Snapshot)
    requires !WasObserved(e, s) && (e.observation.Some? ==> e.observation.value.at <= s.at)
    ensures e.observation.None? ==> Absorbed(e, s).observation.None?
    ensures e.observation.Some? ==> Absorbed(e, s).observation.Some? && Absorbed(e, s).observation.value.reading == Unverifiable(MachineUnreachable)
    ensures e.observation.Some? && e.observation.value.reading == Unverifiable(MachineUnreachable) ==> Absorbed(e, s) == e
  {
  }

  /** A contradiction is never the first thing said of an element: some snapshot found its port answering before. */
  lemma {:induction false} ContradictedWasVerified(e: Element, snapshots: seq<Snapshot>)
    requires AbsorbedInTurn(e, snapshots).observation.Some? && AbsorbedInTurn(e, snapshots).observation.value.reading == Contradicted
    requires e.observation.Some? ==> e.observation.value.reading.Unverifiable?
    ensures exists k :: 0 <= k < |snapshots| && Reported(e, snapshots[k]) == Some(Answered)
    decreases |snapshots|
  {
    if Reported(e, snapshots[0]) == Some(Answered) {
      assert 0 <= 0 < |snapshots|;
    } else {
      var next := Absorbed(e, snapshots[0]);
      ContradictedWasVerified(next, snapshots[1..]);
      var k :| 0 <= k < |snapshots[1..]| && Reported(next, snapshots[1..][k]) == Some(Answered);
      assert snapshots[1..][k] == snapshots[k + 1] && Reported(e, snapshots[k + 1]) == Some(Answered);
    }
  }

  /**
   * A contradiction stands while every snapshot that says something of the port says that nothing
   * listens: it is left exactly by another answer, or by losing sight of the machine.
   */
  lemma ContradictionStandsIff(e: Element, s: Snapshot)
    requires e.observation.Some? && e.observation.value.reading == Contradicted
    requires if WasObserved(e, s) then e.observation.value.at <= s.reports[e.machine].value.observedAt else e.observation.value.at <= s.at
    ensures Absorbed(e, s).observation.value.reading == Contradicted <==>
              WasObserved(e, s) && Reported(e, s) in {None, Some(Unknown), Some(NoListener)}
  {
  }

  /** So one snapshot without the machine is enough for a contradiction to be forgotten, although no reading verified the port again. */
  lemma AContradictionIsForgotten()
    ensures var e := Element("id", "m", 1, "", Some(Observation(Contradicted, 1)));
            var unseen, seen := Snapshot(2, map[]), Snapshot(3, map["m" := Some(MachineReport(3, [(1, NoListener)]))]);
            AbsorbedInTurn(e, [unseen, seen]).observation == Some(Observation(Unverifiable(NothingListening), 3))
  {
    var e := Element("id", "m", 1, "", Some(Observation(Contradicted, 1)));
    var unseen, seen := Snapshot(2, map[]), Snapshot(3, map["m" := Some(MachineReport(3, [(1, NoListener)]))]);
    assert [unseen, seen][1..] == [seen] && [seen][1..] == [];
    UnobservedSays(e, unseen);
    var next := Absorbed(e, unseen);
    TheFirstReportCounts([(1, NoListener)], 1, 0);
    assert Reported(next, seen) == Some(NoListener) && next.observation == Some(Observation(Unverifiable(MachineUnreachable), 2));
    ReadingsSay(next, seen);
    assert AbsorbedInTurn(next, [seen]) == Absorbed(next, seen);
  }

  /** The second time, a snapshot has nothing left to say. */
  lemma AbsorbingIsIdempotent(e: Element, s: Snapshot)
    ensures Absorbed(Absorbed(e, s), s) == Absorbed(e, s)
  {
  }

  ghost predicate NotOlder(before: Option<Observation>, after: Option<Observation>) {
    before.Some? ==> after.Some? && before.value.at <= after.value.at
  }

  lemma AbsorbingNeverRegresses(e: Element, s: Snapshot)
    ensures NotOlder(e.observation, Absorbed(e, s).observation)
    ensures Absorbed(e, s) == e.(observation := Absorbed(e, s).observation)
  {
  }

  lemma AllAbsorbedTwice(elements: seq<Element>, s: Snapshot)
    ensures AllAbsorbed(AllAbsorbed(elements, s), s) == AllAbsorbed(elements, s)
  {
    forall i | 0 <= i < |elements| ensures Absorbed(Absorbed(elements[i], s), s) == Absorbed(elements[i], s) {
      AbsorbingIsIdempotent(elements[i], s);
    }
  }

  /** Whatever snapshots are absorbed, in whatever order, no element is ever read further back in time. */
  function AbsorbedInTurn(e: Element, snapshots: seq<Snapshot>): Element
    decreases |snapshots|
  {
    if snapshots == [] then e else AbsorbedInTurn(Absorbed(e, snapshots[0]), snapshots[1..])
  }

  lemma {:induction false} NoSequenceOfSnapshotsRegresses(e: Element, snapshots: seq<Snapshot>)
    ensures NotOlder(e.observation, AbsorbedInTurn(e, snapshots).observation)
    decreases |snapshots|
  {
    if snapshots != [] {
      AbsorbingNeverRegresses(e, snapshots[0]);
      NoSequenceOfSnapshotsRegresses(Absorbed(e, snapshots[0]), snapshots[1..]);
    }
  }

  // ---- The store

  ghost predicate HoldsId(inventory: Inventory, id: string) { exists e :: e in inventory.elements && e.id == id }

  predicate Full(inventory: Inventory) { |inventory.elements| >= 128 || inventory.revision == 0xFFFF_FFFF_FFFF_FFFF }

  ghost predicate MayBeReadAt(inventory: Inventory, id: string, observed: Observation) {
    exists e :: e in inventory.elements && e.id == id && NotOlder(e.observation, Some(observed))
  }

  datatype Answer = Done(element: Element, revision: nat) | Refused | NotWritten

  datatype Absorption = Settled(changed: bool) | Saturated | NotStored

  class Store {
    const reliable: bool        // on a reliable disk every write is made
    var state: Inventory
    var file: Inventory

    constructor (reliable: bool)
      ensures Valid() && this.reliable == reliable && state == Inventory(0, []) && file == state
    {
      this.reliable, state, file := reliable, Inventory(0, []), Inventory(0, []);
    }

    ghost predicate Valid()
      reads this
    {
      WellKept(state) && WellKept(file)
    }

    /** A write that fails may still have replaced the file; the state then stays behind it. */
    method Commit(candidate: Inventory) returns (ok: bool)
      requires Valid() && WellKept(candidate)
      modifies this
      ensures Valid()
      ensures state == if ok then candidate else old(state)
      ensures file == candidate || (!ok && file == old(file))
      ensures reliable ==> ok
    {
      var replaced: bool := *;
      replaced := replaced || reliable;
      if replaced {
        file := candidate;
      }
      ok := *;
      ok := (ok || reliable) && replaced;
      if ok {
        state := candidate;
      }
    }

    /** Declare: one more element at its own place, unless its machine and port already have one. */
    method Declare(machine: string, port: int, declared: string, attached: bool, minted: string) returns (r: Answer)
      requires Valid()
      modifies this
      ensures Valid()
      ensures !r.Done? ==> state == old(state)
      ensures r.Refused? <==> (port < 1 || port > 65535 || !attached || old(Declared(state.elements, machine, port) || HoldsId(state, minted) || Full(state)))
      ensures r.Done? ==> r.revision == state.revision == old(state.revision) + 1
      ensures r.Done? ==> r.element == Element(minted, machine, port, declared, None)
      ensures r.Done? ==> exists i :: Inserted(old(state.elements), state.elements, i, r.element)
      ensures reliable ==> !r.NotWritten?
    {
      if port < 1 || port > 65535 || !attached {
        return Refused;
      }
      var index := ExternalSearch(state.elements, machine, port);
      FoundAtItsPlace(state.elements, machine, port, index);
      if index < |state.elements| && state.elements[index].machine == machine && state.elements[index].port == port {
        return Refused;
      }
      if |state.elements| >= MAX_ELEMENTS || state.revision == MAX_REVISION {
        return Refused;
      }
      if exists i :: 0 <= i < |state.elements| && state.elements[i].id == minted {
        return Refused; // an identifier that is already held does not validate
      }
      var element := Element(minted, machine, port, declared, None);
      InsertingKeepsOrder(state.elements, element, index);
      var elements := state.elements[..index] + [element] + state.elements[index..];
      var ok := Commit(Inventory(state.revision + 1, elements));
      r := if ok then Done(element, state.revision) else NotWritten;
      assert r.Done? ==> Inserted(old(state.elements), state.elements, index, r.element);
    }

    /** Withdraw: the declaration that carries the identifier, and nothing else. */
    method Withdraw(id: string) returns (r: Answer)
      requires Valid()
      modifies this
      ensures Valid()
      ensures !r.Done? ==> state == old(state)
      ensures r.Done? ==> r.revision == state.revision == old(state.revision) + 1
      ensures r.Refused? <==> old(state.revision == MAX_REVISION || !HoldsId(state, id))
      ensures r.Done? ==> r.element.id == id && exists i :: Inserted(state.elements, old(state.elements), i, r.element)
      ensures reliable ==> !r.NotWritten?
    {
      for index := 0 to |state.elements|
        invariant state == old(state) && Valid()
        invariant forall i :: 0 <= i < index ==> state.elements[i].id != id
      {
        if state.elements[index].id == id {
          if state.revision == MAX_REVISION {
            return Refused;
          }
          ghost var before := state.elements;
          assert before[index] in before;
          RemovingKeeps(before, index);
          var elements := state.elements[..index] + state.elements[index + 1..];
          var removed := state.elements[index];
          var ok := Commit(Inventory(state.revision + 1, elements));
          r := if ok then Done(removed, state.revision) else NotWritten;
          assert r.Done? ==> Inserted(state.elements, before, index, r.element);
          return;
        }
      }
      r := Refused;
    }

    /** RecordObservation: one reading of one element, never older than the one it replaces. */
    method RecordObservation(id: string, observed: Observation) returns (r: Answer)
      requires Valid()
      modifies this
      ensures Valid()
      ensures !r.Done? ==> state == old(state)
      ensures r.Done? ==> r.revision == state.revision == old(state.revision) + 1
      ensures r.Refused? <==> old(state.revision == MAX_REVISION || !MayBeReadAt(state, id, observed))
      ensures r.Done? ==> exists i :: Observed(old(state.elements), state.elements, i, id, observed)
      ensures reliable ==> !r.NotWritten?
    {
      for index := 0 to |state.elements|
        invariant state == old(state) && Valid()
        invariant forall i :: 0 <= i < index ==> state.elements[i].id != id
      {
        var element := state.elements[index];
        if element.id == id {
          if (element.observation.Some? && observed.at < element.observation.value.at) || state.revision == MAX_REVISION {
            return Refused;
          }
          var elements := state.elements[index := element.(observation := Some(observed))];
          assert Observed(state.elements, elements, index, id, observed);
          var ok := Commit(Inventory(state.revision + 1, elements));
          r := if ok then Done(elements[index], state.revision) else NotWritten;
          return;
        }
      }
      r := Refused;
    }

    /**
     * AbsorbSnapshot: every element told what the snapshot says of it. The revision moves by one
     * exactly when some element did, and a snapshot that says nothing new writes nothing.
     */
    method AbsorbSnapshot(snapshot: Snapshot) returns (r: Absorption)
      requires Valid()
      modifies this
      ensures Valid()
      ensures old(AllAbsorbed(state.elements, snapshot) == state.elements) ==> r == Settled(false) && state == old(state) && file == old(file)
      ensures r.Settled? ==> state.elements == old(AllAbsorbed(state.elements, snapshot))
      ensures r.Settled? ==> r.changed == (state.elements != old(state.elements))
      ensures r.Settled? ==> state.revision == old(state.revision) + (if r.changed then 1 else 0)
      ensures !r.Settled? ==> state == old(state)
      ensures r.Saturated? ==> old(state.revision) == MAX_REVISION
      ensures reliable ==> !r.NotStored?
    {
      var elements := state.elements;
      var changed := false;
      for index := 0 to |elements|
        invariant |elements| == |state.elements| && state == old(state) && file == old(file) && Valid()
        invariant forall i :: 0 <= i < |elements| ==> elements[i] == if i < index then Absorbed(state.elements[i], snapshot) else state.elements[i]
        invariant changed <==> exists i :: 0 <= i < index && elements[i] != state.elements[i]
      {
        var element := elements[index];
        var concluded := Concluded(element, snapshot);
        if concluded.Some? && element.observation != concluded && !(element.observation.Some? && concluded.value.at < element.observation.value.at) {
          elements := elements[index := element.(observation := concluded)];
          changed := true;
        }
      }
      assert elements == AllAbsorbed(state.elements, snapshot);
      if !changed {
        assert elements == state.elements;
        return Settled(false);
      }
      if state.revision == MAX_REVISION {
        return Saturated;
      }
      forall i | 0 <= i < |elements| ensures elements[i].id == state.elements[i].id && elements[i].machine == state.elements[i].machine && elements[i].port == state.elements[i].port {
        AbsorbingNeverRegresses(state.elements[i], snapshot);
      }
      var ok := Commit(Inventory(state.revision + 1, elements));
      r := if ok then Settled(true) else NotStored;
    }

    /** An App that refreshes twice does not make the inventory look as if it had moved. */
    method AbsorbTwice(snapshot: Snapshot) returns (first: Absorption, second: Absorption)
      requires Valid()
      modifies this
      ensures Valid()
      ensures first.Settled? ==> second == Settled(false)
      ensures first.Settled? ==> state.revision == old(state.revision) + (if first.changed then 1 else 0)
      ensures first.Settled? ==> state.elements == old(AllAbsorbed(state.elements, snapshot))
    {
      AllAbsorbedTwice(state.elements, snapshot);
      first := AbsorbSnapshot(snapshot);
      second := first;
      if first.Settled? {
        second := AbsorbSnapshot(snapshot);
      }
    }
  }

  ghost predicate Inserted(before: seq<Element>, after: seq<Element>, i: nat, e: Element) {
    i <= |before| && after == before[..i] + [e] + before[i..]
  }

  ghost predicate Observed(before: seq<Element>, after: seq<Element>, i: nat, id: string, observed: Observation) {
    && i < |before| && before[i].id == id && NotOlder(before[i].observation, Some(observed))
    && after == before[i := before[i].(observation := Some(observed))]
  }

  /** In an inventory of unique identifiers, withdrawing what was declared puts it back as it was. */
  lemma WithdrawingUndoesDeclaring(before: seq<Element>, declared: seq<Element>, after: seq<Element>, i: nat, j: nat, e: Element, f: Element)
    requires UniqueIds(declared) && Inserted(before, declared, i, e) && Inserted(after, declared, j, f) && e.id == f.id
    ensures after == before && e == f
  {
    assert declared[i] == e && declared[j] == f;
    assert i == j;
    assert before == declared[..i] + declared[i + 1..];
    assert after == declared[..i] + declared[i + 1..];
  }
}
