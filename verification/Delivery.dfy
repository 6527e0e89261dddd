/**
 * The bounded delivery queue of one Daemon: what it holds, what it evicts, and what it says about
 * everything it evicted.
 */
module Delivery {
  import opened Wrappers
  import opened Gaps

  const HARD_MAX_BYTES := 16 * 1024 * 1024
  const HARD_MAX_RECORDS := 10_000
  const HARD_MAX_AGE := 24 * 3600 * 1_000_000_000
  const MINIMUM_MAX_BYTES := 16 * 1024
  const MAX_MESSAGE_BYTES := 4096

  /** Instants are nanoseconds; everything an envelope says beside its place and instant is its body. */
  datatype Envelope = Envelope(sequence: nat, observedAt: int, body: string, gaps: seq<Gap>)

  datatype Diary = Diary(lastDelivered: Option<int>, deliveryState: string, lastTransition: Option<int>)

  datatype State = State(next: nat, current: Option<Envelope>, pending: seq<Envelope>, gaps: seq<Gap>, diary: Diary)

  /** A state beside the sequences the Relay had confirmed when it was written. */
  datatype Version = Version(state: State, acknowledged: set<nat>)

  datatype Limits = Limits(maxBytes: int, maxRecords: int, maxAge: int) {
    predicate Approved() {
      && MINIMUM_MAX_BYTES <= maxBytes <= HARD_MAX_BYTES
      && 1 <= maxRecords <= HARD_MAX_RECORDS
      && 0 < maxAge <= HARD_MAX_AGE
    }
  }

  /** What a queue may be given: 16 KiB to 16 MiB, one record to ten thousand, and up to a day. */
  lemma ApprovedIff(l: Limits)
    ensures l.Approved() <==> 16384 <= l.maxBytes <= 16777216 && 1 <= l.maxRecords <= 10000 && 1 <= l.maxAge <= 86400000000000
  {
  }

  const FRESH := State(1, None, [], [], Diary(None, "unknown", None))

  /** The sequence of the oldest record still pending, or the next one where none is. */
  function Head(s: State): int { s.next - |s.pending| }

  function Attached(s: State): seq<Gap> { if s.pending == [] then [] else s.pending[0].gaps }

  /** The shape every reachable state has: a run of sequences, and gaps below all of them in one place. */
  ghost predicate Queue(s: State) {
    && |s.pending| < s.next
    && (forall i :: 0 <= i < |s.pending| ==> s.pending[i].sequence == Head(s) + i)
    && (forall i :: 0 < i < |s.pending| ==> s.pending[i].gaps == [])
    && Normal(s.gaps) && Below(s.gaps, Head(s))
    && Normal(Attached(s)) && Below(Attached(s), Head(s))
    && (Attached(s) != [] ==> s.gaps == [])
    && (s.current.Some? ==> 1 <= s.current.value.sequence < s.next && s.current.value.gaps == [])
  }

  predicate ExactlyOne(a: bool, b: bool, c: bool) { (a && !b && !c) || (!a && b && !c) || (!a && !b && c) }

  /** Below the oldest pending record, every sequence was either delivered or said to be lost, once. */
  ghost predicate Settled(v: Version, q: nat) {
    if 1 <= q < Head(v.state)
    then ExactlyOne(Covered(v.state.gaps, q), Covered(Attached(v.state), q), q in v.acknowledged)
    else q !in v.acknowledged
  }

  ghost predicate Accounted(v: Version) {
    Queue(v.state) && forall q: nat :: Settled(v, q)
  }

  ghost predicate IsPending(s: State, q: nat) { exists i :: 0 <= i < |s.pending| && s.pending[i].sequence == q }

  /**
   * Conservation: every sequence ever given out is in exactly one place, and no other sequence is
   * in any. Exactly one record, or exactly one range, holds it there.
   */
  lemma Conservation(v: Version, q: nat)
    requires Accounted(v)
    ensures if 1 <= q < v.state.next
            then IsPending(v.state, q) != ExactlyOne(Covered(v.state.gaps, q), Covered(Attached(v.state), q), q in v.acknowledged)
            else !IsPending(v.state, q) && q !in v.acknowledged
    ensures IsPending(v.state, q) || q >= v.state.next || q == 0 ==>
              !Covered(v.state.gaps, q) && !Covered(Attached(v.state), q) && q !in v.acknowledged
  {
    var s := v.state;
    assert Settled(v, q);
    if Covered(s.gaps, q) {
      CoveredAreBelow(s.gaps, Head(s), q);
    }
    if Covered(Attached(s), q) {
      CoveredAreBelow(Attached(s), Head(s), q);
    }
    if Head(s) <= q < s.next {
      assert s.pending[q - Head(s)].sequence == q;
    }
  }

  // ---- Eviction

  function GapOf(e: Envelope): Gap { Gap(e.sequence, e.sequence, 1, e.observedAt, e.observedAt) }

  /** Everything a dropped record had said was lost is said again, and then its own loss. */
  ghost function Dropped(s: State): State
    requires Queue(s) && s.pending != []
  {
    OneOfTheTwoIsEmpty(s);
    s.(pending := s.pending[1..], gaps := Extended(s.gaps + Attached(s), GapOf(s.pending[0])))
  }

  lemma OneOfTheTwoIsEmpty(s: State)
    requires Queue(s)
    ensures s.gaps + Attached(s) == if s.gaps == [] then Attached(s) else s.gaps
    ensures Normal(s.gaps + Attached(s)) && Below(s.gaps + Attached(s), Head(s))
    ensures forall q :: Covered(s.gaps + Attached(s), q) <==> Covered(s.gaps, q) || Covered(Attached(s), q)
  {
    assert s.gaps == [] ==> s.gaps + Attached(s) == Attached(s);
    assert Attached(s) == [] ==> s.gaps + Attached(s) == s.gaps;
  }

  lemma DroppingKeepsTheQueue(s: State)
    requires Queue(s) && s.pending != []
    ensures Queue(Dropped(s)) && Head(Dropped(s)) == Head(s) + 1
    ensures forall q :: Covered(Dropped(s).gaps, q) <==> Covered(s.gaps, q) || Covered(Attached(s), q) || q == Head(s)
  {
    OneOfTheTwoIsEmpty(s);
    AddedOnTop(s.gaps + Attached(s), GapOf(s.pending[0]));
  }

  lemma AddedOnTop(gaps: seq<Gap>, g: Gap)
    requires Normal(gaps) && Below(gaps, g.first) && g.Counted()
    ensures Normal(Extended(gaps, g)) && Below(Extended(gaps, g), g.last + 1)
    ensures forall q :: Covered(Extended(gaps, g), q) <==> Covered(gaps, q) || Within(g, q)
  {
    Extending(gaps, g);
    if gaps == [] || Last(gaps).last + 1 < g.first {
      Appended(gaps, g);
    } else {
      Appended(Front(gaps), Merged(Last(gaps), g));
    }
  }

  lemma DroppingKeepsAccounts(v: Version)
    requires Accounted(v) && v.state.pending != []
    ensures Accounted(v.(state := Dropped(v.state)))
  {
    DroppingKeepsTheQueue(v.state);
    forall q: nat ensures Settled(v.(state := Dropped(v.state)), q) {
      assert Settled(v, q);
      Conservation(v, q);
    }
  }

  /** The ranges a dropped record carried, added one by one to those stored. */
  method GiveBack(stored: seq<Gap>, carried: seq<Gap>) returns (gaps: seq<Gap>)
    requires Normal(stored) && Normal(carried) && (carried != [] ==> stored == [])
    ensures gaps == if carried == [] then stored else carried
  {
    gaps := stored;
    for n := 0 to |carried|
      invariant gaps == if carried == [] then stored else carried[..n]
      invariant Normal(gaps)
    {
      RangesAreLaidInOrder(carried, n);
      NormalIsAscending(gaps);
      gaps := AddGap(gaps, carried[n]);
    }
    assert carried[..|carried|] == carried;
  }

  method DropOldest(s: State) returns (r: State)
    requires Queue(s) && s.pending != []
    ensures r == Dropped(s)
  {
    OneOfTheTwoIsEmpty(s);
    var dropped := s.pending[0];
    var gaps := GiveBack(s.gaps, dropped.gaps);
    NormalIsAscending(gaps);
    gaps := AddGap(gaps, GapOf(dropped));
    r := s.(pending := s.pending[1..], gaps := gaps);
  }

  lemma {:induction false} RangesAreLaidInOrder(gaps: seq<Gap>, n: nat)
    requires Normal(gaps) && n < |gaps|
    ensures Normal(gaps[..n]) && Normal(gaps[..n + 1]) && gaps[n].Counted()
    ensures Below(gaps[..n], gaps[n].first) && Extended(gaps[..n], gaps[n]) == gaps[..n + 1]
    decreases |gaps|
  {
    if n < |gaps| - 1 {
      RangesAreLaidInOrder(Front(gaps), n);
      assert Front(gaps)[..n] == gaps[..n] && Front(gaps)[..n + 1] == gaps[..n + 1];
    } else {
      assert gaps[..n] == Front(gaps) && gaps[..n + 1] == gaps;
      assert gaps[..n] + [gaps[n]] == gaps;
    }
  }

  /** Within the age, the count and the encoded size this queue is allowed. */
  predicate Fits(size: State -> nat, limits: Limits, now: int, s: State)
    requires s.pending != []
  {
    && s.pending[0].observedAt >= now - limits.maxAge
    && |s.pending| <= limits.maxRecords
    && size(s) <= limits.maxBytes
  }

  ghost function DroppedTimes(s: State, k: nat): (r: State)
    requires Queue(s) && k <= |s.pending|
    ensures Queue(r) && |r.pending| == |s.pending| - k && Head(r) == Head(s) + k && r.next == s.next
    ensures r.current == s.current && r.diary == s.diary && r.pending == s.pending[k..]
    decreases k
  {
    if k == 0 then s
    else
      var t := DroppedTimes(s, k - 1);
      DroppingKeepsTheQueue(t);
      Dropped(t)
  }

  /** The state k evictions lead to is where enforcing stops: it fits, or nothing is left to evict. */
  ghost predicate StopsAt(size: State -> nat, limits: Limits, now: int, s: State, k: nat)
    requires Queue(s) && k <= |s.pending|
  {
    k == |s.pending| || Fits(size, limits, now, DroppedTimes(s, k))
  }

  /** The shortest prefix whose eviction meets the limits. */
  ghost predicate Shortest(size: State -> nat, limits: Limits, now: int, s: State, k: nat)
    requires Queue(s)
  {
    k <= |s.pending| && StopsAt(size, limits, now, s, k) && NoneStops(size, limits, now, s, k)
  }

  ghost predicate NoneStops(size: State -> nat, limits: Limits, now: int, s: State, k: nat)
    requires Queue(s) && k <= |s.pending|
  {
    forall j: nat :: j < k ==> !StopsAt(size, limits, now, s, j)
  }

  lemma OneMoreIsDropped(size: State -> nat, limits: Limits, now: int, s: State, k: nat)
    requires Queue(s) && k < |s.pending| && NoneStops(size, limits, now, s, k) && !Fits(size, limits, now, DroppedTimes(s, k))
    ensures NoneStops(size, limits, now, s, k + 1)
    ensures DroppedTimes(s, k + 1) == Dropped(DroppedTimes(s, k))
  {
    assert !StopsAt(size, limits, now, s, k);
  }

  /** enforce: drops the shortest prefix that meets the limits, and fails only where even none fits. */
  method Enforce(size: State -> nat, limits: Limits, now: int, s: State) returns (r: Option<State>, evicted: nat)
    requires Queue(s)
    ensures Shortest(size, limits, now, s, evicted)
    ensures r == if evicted == |s.pending| && size(DroppedTimes(s, evicted)) > limits.maxBytes then None else Some(DroppedTimes(s, evicted))
  {
    var candidate := s;
    evicted := 0;
    while candidate.pending != []
      invariant evicted <= |s.pending| && candidate == DroppedTimes(s, evicted)
      invariant NoneStops(size, limits, now, s, evicted)
      decreases |s.pending| - evicted
    {
      if Fits(size, limits, now, candidate) {
        return Some(candidate), evicted;
      }
      OneMoreIsDropped(size, limits, now, s, evicted);
      candidate := DropOldest(candidate);
      evicted := evicted + 1;
    }
    r := if size(candidate) > limits.maxBytes then None else Some(candidate);
  }

  lemma {:induction false} DroppingTimesKeepsAccounts(v: Version, k: nat)
    requires Accounted(v) && k <= |v.state.pending|
    ensures Accounted(v.(state := DroppedTimes(v.state, k)))
    decreases k
  {
    if k > 0 {
      DroppingTimesKeepsAccounts(v, k - 1);
      DroppingKeepsAccounts(v.(state := DroppedTimes(v.state, k - 1)));
    }
  }
}
