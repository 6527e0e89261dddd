/** The buffer object of one Daemon, its state file, and every failure a write of that file can have. */
module DeliveryQueue {
  import opened Wrappers
  import opened Gaps
  import opened Delivery
  import opened Buffers

  datatype Opening = Opened | Refused | Unreadable | Invalid | OverLimits | NotWritten

  datatype Queued = Queued(envelope: Envelope) | NotAnObservation | NothingFits | NotQueued

  datatype Peeked = Peeked(envelope: Envelope) | Empty | NotEncodable | NotAttached

  /** An envelope that was handed out once is the oldest one still, gaps and all, or is gone. */
  ghost predicate Stable(s: State, peeked: map<nat, Envelope>) {
    forall q :: q in peeked ==>
      q < s.next && q <= Head(s) && (q == Head(s) && s.pending != [] ==> s.pending[0] == peeked[q] && s.gaps == [])
  }

  /** A state some operation made of another: its oldest record is no older, and the same one is unchanged. */
  ghost predicate Ahead(s: State, t: State) {
    && s.next <= t.next && Head(s) <= Head(t)
    && (Head(s) == Head(t) && s.pending != [] && t.pending != [] && s.gaps == [] ==> t.pending[0] == s.pending[0] && t.gaps == [])
  }

  ghost predicate Good(wellFormed: string -> bool, v: Version) { Accounted(v) && WellFormed(wellFormed, v.state) }

  /** A well-kept version of the state, that contradicts no envelope handed out so far. */
  ghost predicate Tenable(wellFormed: string -> bool, peeked: map<nat, Envelope>, v: Version) {
    Good(wellFormed, v) && Stable(v.state, peeked)
  }

  ghost predicate Successor(wellFormed: string -> bool, peeked: map<nat, Envelope>, v: Version, w: Version) {
    Tenable(wellFormed, peeked, w) && Ahead(v.state, w.state)
  }

  /** One of the three limits is passed: too many records, too many bytes, or an oldest one too old. */
  predicate Over(size: State -> nat, limits: Limits, now: int, s: State) {
    |s.pending| > limits.maxRecords || size(s) > limits.maxBytes || (s.pending != [] && s.pending[0].observedAt < now - limits.maxAge)
  }

  /** With all k of its records evicted, a state still passes its limit of bytes. */
  ghost predicate OverWithNone(size: State -> nat, limits: Limits, s: State, k: nat) {
    Queue(s) && k == |s.pending| && size(DroppedTimes(s, k)) > limits.maxBytes
  }

  ghost predicate Unfitting(size: State -> nat, limits: Limits, s: State) { exists k: nat :: OverWithNone(size, limits, s, k) }

  function Told(s: State, value: string, at: int): State { s.(diary := s.diary.(deliveryState := value, lastTransition := Some(at))) }

  /** What was evicted had to be: with any fewer evictions, a limit is passed. */
  ghost predicate HadTo(size: State -> nat, limits: Limits, now: int, s: State, after: State) {
    exists k: nat :: Shortened(size, limits, now, s, after, k)
  }

  ghost predicate Shortened(size: State -> nat, limits: Limits, now: int, s: State, after: State, k: nat) {
    Queue(s) && k <= |s.pending| && after == DroppedTimes(s, k) && OverBefore(size, limits, now, s, k)
  }

  ghost predicate OverBefore(size: State -> nat, limits: Limits, now: int, s: State, k: nat)
    requires Queue(s) && k <= |s.pending|
  {
    forall j: nat :: j < k ==> Over(size, limits, now, DroppedTimes(s, j))
  }

  lemma ShortestIsOverBefore(size: State -> nat, limits: Limits, now: int, s: State, k: nat)
    requires Queue(s) && Shortest(size, limits, now, s, k)
    ensures OverBefore(size, limits, now, s, k)
  {
    forall j: nat | j < k ensures Over(size, limits, now, DroppedTimes(s, j)) {
      assert !StopsAt(size, limits, now, s, j);
    }
  }

  /** What stays is within the count, the size and the age, and nothing more than needed was evicted. */
  lemma EnforcedMeetsTheLimits(size: State -> nat, limits: Limits, now: int, v: Version, k: nat)
    requires Queue(v.state) && limits.Approved() && Shortest(size, limits, now, v.state, k)
    requires k < |v.state.pending| || size(DroppedTimes(v.state, k)) <= limits.maxBytes
    ensures Evicted(size, limits, now, v, v.(state := DroppedTimes(v.state, k)))
  {
    ShortestIsOverBefore(size, limits, now, v.state, k);
    assert Shortened(size, limits, now, v.state, DroppedTimes(v.state, k), k);
  }

  /** The same accounts, the shortest prefix evicted, for one of the limits each time; what stays is within all three. */
  ghost predicate Evicted(size: State -> nat, limits: Limits, now: int, v: Version, w: Version) {
    && w.acknowledged == v.acknowledged && HadTo(size, limits, now, v.state, w.state)
    && |w.state.pending| <= limits.maxRecords && size(w.state) <= limits.maxBytes
    && (w.state.pending != [] ==> w.state.pending[0].observedAt >= now - limits.maxAge)
  }

  lemma FurtherIsStable(s: State, t: State, peeked: map<nat, Envelope>)
    requires Stable(s, peeked) && t.next == s.next && Head(s) < Head(t)
    ensures Stable(t, peeked)
  {
  }

  lemma EvictingLeadsAhead(wellFormed: string -> bool, peeked: map<nat, Envelope>, v: Version, w: Version, k: nat)
    requires Successor(wellFormed, peeked, v, w) && k <= |w.state.pending|
    ensures Successor(wellFormed, peeked, v, w.(state := DroppedTimes(w.state, k)))
  {
    DroppingTimesKeepsAccounts(w, k);
    if k > 0 {
      var t := DroppedTimes(w.state, k);
      FurtherIsStable(w.state, t, peeked);
      EvictedIsGood(wellFormed, w, k);
      assert Head(v.state) < Head(t);
    }
  }

  lemma EvictedIsGood(wellFormed: string -> bool, w: Version, k: nat)
    requires Good(wellFormed, w) && k <= |w.state.pending|
    ensures WellFormed(wellFormed, DroppedTimes(w.state, k))
  {
    var t := DroppedTimes(w.state, k);
    forall i | 0 <= i < |t.pending| ensures wellFormed(t.pending[i].body) {
      assert t.pending[i] == w.state.pending[k + i];
    }
  }

  lemma EnqueuingLeadsAhead(wellFormed: string -> bool, peeked: map<nat, Envelope>, v: Version, e: Envelope)
    requires Tenable(wellFormed, peeked, v) && e.sequence == v.state.next && e.gaps == [] && wellFormed(e.body)
    ensures Successor(wellFormed, peeked, v, v.(state := Enqueued(v.state, e)))
  {
    EnqueuingKeepsAccounts(v, e);
  }

  lemma AttachingLeadsAhead(wellFormed: string -> bool, peeked: map<nat, Envelope>, v: Version)
    requires Tenable(wellFormed, peeked, v) && v.state.gaps != [] && v.state.pending != []
    ensures Successor(wellFormed, peeked, v, v.(state := WithGapsAttached(v.state)))
  {
    AttachingKeepsAccounts(v);
  }

  lemma ConfirmingLeadsAhead(wellFormed: string -> bool, peeked: map<nat, Envelope>, v: Version, at: int)
    requires Tenable(wellFormed, peeked, v) && v.state.pending != []
    ensures Successor(wellFormed, peeked, v, Confirmed(v, at))
  {
    ConfirmingKeepsAccounts(v, at);
  }

  /** What a file may hold: nothing before anything was handed out, or a tenable version of the
      state that is ahead of the one in memory. */
  ghost predicate Kept(wellFormed: string -> bool, peeked: map<nat, Envelope>, memory: Option<Version>, file: Option<Version>) {
    if file.None? then memory.None? && peeked == map[]
    else Tenable(wellFormed, peeked, file.value) && (memory.Some? ==> Ahead(memory.value.state, file.value.state))
  }

  /** The state in memory and every file there may be. */
  ghost predicate AllKept(wellFormed: string -> bool, peeked: map<nat, Envelope>, memory: Option<Version>, files: seq<Option<Version>>) {
    if files == [] then memory.Some? ==> Tenable(wellFormed, peeked, memory.value)
    else Kept(wellFormed, peeked, memory, files[|files| - 1]) && AllKept(wellFormed, peeked, memory, files[..|files| - 1])
  }

  ghost predicate OrderlyIn(version: Option<Version>) { version.Some? ==> Orderly(version.value.state) }

  ghost predicate AllOrderly(memory: Option<Version>, files: seq<Option<Version>>) {
    if files == [] then OrderlyIn(memory) else OrderlyIn(files[|files| - 1]) && AllOrderly(memory, files[..|files| - 1])
  }

  lemma {:induction false} EachIsKept(wellFormed: string -> bool, peeked: map<nat, Envelope>, memory: Option<Version>, files: seq<Option<Version>>, k: nat)
    requires AllKept(wellFormed, peeked, memory, files) && k < |files|
    ensures Kept(wellFormed, peeked, memory, files[k])
    ensures AllOrderly(memory, files) ==> OrderlyIn(files[k])
    decreases |files|
  {
    if k < |files| - 1 {
      EachIsKept(wellFormed, peeked, memory, files[..|files| - 1], k);
    }
  }

  lemma {:induction false} MemoryIsKept(wellFormed: string -> bool, peeked: map<nat, Envelope>, memory: Option<Version>, files: seq<Option<Version>>)
    requires AllKept(wellFormed, peeked, memory, files)
    ensures memory.Some? ==> Tenable(wellFormed, peeked, memory.value)
    ensures AllOrderly(memory, files) ==> OrderlyIn(memory)
    decreases |files|
  {
    if files != [] {
      MemoryIsKept(wellFormed, peeked, memory, files[..|files| - 1]);
    }
  }

  lemma {:induction false} KeptAfterTheCrash(wellFormed: string -> bool, peeked: map<nat, Envelope>, memory: Option<Version>, files: seq<Option<Version>>)
    requires AllKept(wellFormed, peeked, memory, files)
    ensures AllKept(wellFormed, peeked, None, files)
    ensures AllOrderly(memory, files) ==> AllOrderly(None, files)
    decreases |files|
  {
    if files != [] {
      KeptAfterTheCrash(wellFormed, peeked, memory, files[..|files| - 1]);
    }
  }

  /** Handing out the oldest envelope contradicts no file: each holds it unchanged, or is past it. */
  lemma {:induction false} KeptAfterHandingOut(wellFormed: string -> bool, peeked: map<nat, Envelope>, memory: Version, files: seq<Option<Version>>)
    requires AllKept(wellFormed, peeked, Some(memory), files) && Queue(memory.state)
    requires memory.state.pending != [] && memory.state.gaps == []
    ensures AllKept(wellFormed, peeked[memory.state.pending[0].sequence := memory.state.pending[0]], Some(memory), files)
    decreases |files|
  {
    if files != [] {
      KeptAfterHandingOut(wellFormed, peeked, memory, files[..|files| - 1]);
    }
  }

  /** What is in memory may always be the one file there is. */
  lemma MemoryAlone(wellFormed: string -> bool, peeked: map<nat, Envelope>, version: Version)
    requires Tenable(wellFormed, peeked, version)
    ensures AllKept(wellFormed, peeked, Some(version), [Some(version)])
    ensures OrderlyIn(Some(version)) ==> AllOrderly(Some(version), [Some(version)])
  {
    assert [Some(version)][..0] == [];
  }

  lemma FileAlone(wellFormed: string -> bool, peeked: map<nat, Envelope>, file: Option<Version>)
    requires Kept(wellFormed, peeked, None, file)
    ensures AllKept(wellFormed, peeked, None, [file])
    ensures OrderlyIn(file) ==> AllOrderly(None, [file])
  {
    assert [file][..0] == [];
  }

  lemma OneFileMore(wellFormed: string -> bool, peeked: map<nat, Envelope>, memory: Option<Version>, files: seq<Option<Version>>, file: Option<Version>)
    requires AllKept(wellFormed, peeked, memory, files) && Kept(wellFormed, peeked, memory, file)
    ensures AllKept(wellFormed, peeked, memory, files + [file])
    ensures AllOrderly(memory, files) && OrderlyIn(file) ==> AllOrderly(memory, files + [file])
  {
    assert (files + [file])[..|files|] == files;
  }

  /** The oldest record, its own content untouched, beside every loss stored or already attached. */
  predicate HandedOut(s: State, e: Envelope)
    requires s.pending != []
  {
    e == s.pending[0].(gaps := s.gaps + Attached(s))
  }

  class Buffer {
    const size: State -> nat
    const length: Envelope -> nat
    const wellFormed: string -> bool
    const reliable: bool                     // on a reliable disk every write is made and synchronised
    var limits: Limits
    var live: bool
    var memory: Version
    var files: seq<Option<Version>>          // what is read now is the last; a power cut brings any back
    ghost var peeked: map<nat, Envelope>     // every envelope handed out, across every restart

    constructor (size: State -> nat, length: Envelope -> nat, wellFormed: string -> bool, reliable: bool)
      ensures this.reliable == reliable && Valid() && Steady() && !live && files == [None] && peeked == map[]
    {
      this.size, this.length, this.wellFormed, this.reliable := size, length, wellFormed, reliable;
      limits := Limits(MINIMUM_MAX_BYTES, 1, 1);
      live, files, memory, peeked := false, [None], Version(FRESH, {}), map[];
      new;
      FileAlone(wellFormed, peeked, None);
    }

    function Running(): Option<Version>
      reads this
    {
      if live then Some(memory) else None
    }

    ghost predicate Valid()
      reads this
    {
      files != [] && limits.Approved() && AllKept(wellFormed, peeked, Running(), files)
    }

    /** Nothing this queue remembers was observed after something later. */
    ghost predicate Steady()
      reads this
    {
      AllOrderly(Running(), files)
    }

    /** Written beside, synchronised, renamed, and the directory synchronised: it may stop anywhere. */
    method Persist(candidate: Version) returns (ok: bool)
      modifies this`files
      ensures ok ==> files == [Some(candidate)] && size(candidate.state) <= limits.maxBytes
      ensures !ok ==> files == old(files) || files == old(files) + [Some(candidate)]
      ensures reliable && size(candidate.state) <= limits.maxBytes ==> ok
    {
      var written, renamed, synchronised: bool := *, *, *;
      written, renamed, synchronised := written || reliable, renamed || reliable, synchronised || reliable;
      if size(candidate.state) > limits.maxBytes || !written || !renamed {
        return false;
      }
      if !synchronised {
        files := files + [Some(candidate)];
        return false;
      }
      files := [Some(candidate)];
      ok := true;
    }

    /** A candidate becomes the state only after its complete persistence. */
    method Commit(candidate: Version) returns (ok: bool)
      requires Valid() && live && Successor(wellFormed, peeked, memory, candidate)
      modifies this`files, this`memory
      ensures Valid()
      ensures memory == if ok then candidate else old(memory)
      ensures ok ==> files == [Some(memory)] && size(memory.state) <= limits.maxBytes
      ensures !ok ==> files == old(files) || files == old(files) + [Some(candidate)]
      ensures old(Steady()) && Orderly(candidate.state) ==> Steady()
      ensures reliable && size(candidate.state) <= limits.maxBytes ==> ok
    {
      MemoryAlone(wellFormed, peeked, candidate);
      OneFileMore(wellFormed, peeked, Some(memory), files, Some(candidate));
      ok := Persist(candidate);
      if ok {
        memory := candidate;
      }
    }

    /** The process ends, or the machine does: then the file may be any since the last synchronised one. */
    method Crash(power: bool)
      requires Valid()
      modifies this`live, this`files
      ensures Valid() && !live
      ensures old(Steady()) ==> Steady()
      ensures !power ==> files == old(files)
      ensures power ==> |files| == 1 && files[0] in old(files)
    {
      KeptAfterTheCrash(wellFormed, peeked, Running(), files);
      live := false;
      if power {
        var k :| 0 <= k < |files|;
        EachIsKept(wellFormed, peeked, None, files, k);
        FileAlone(wellFormed, peeked, files[k]);
        files := [files[k]];
      }
    }

    /** The opened state is written back before the queue serves anyone. */
    method Begin(candidate: Version) returns (r: Opening)
      requires Valid() && !live && Tenable(wellFormed, peeked, candidate)
      modifies this`files, this`memory, this`live
      ensures Valid() && live == r.Opened? && (r.Opened? || r.NotWritten?)
      ensures r.Opened? ==> files == [Some(memory)] && memory == candidate && size(memory.state) <= limits.maxBytes
      ensures old(Steady()) && Orderly(candidate.state) ==> Steady()
      ensures reliable && size(candidate.state) <= limits.maxBytes ==> r.Opened?
    {
      MemoryAlone(wellFormed, peeked, candidate);
      OneFileMore(wellFormed, peeked, None, files, Some(candidate));
      var ok := Persist(candidate);
      if !ok {
        return NotWritten;
      }
      memory, live := candidate, true;
      r := Opened;
    }

    /** The file is validated, evicted to the new limits, and written back. */
    method Resume(found: Version, now: int) returns (r: Opening)
      requires Valid() && !live && Tenable(wellFormed, peeked, found)
      modifies this`files, this`memory, this`live
      ensures Valid() && live == r.Opened? && !r.Refused?
      ensures r.Opened? ==> files == [Some(memory)] && Evicted(size, limits, now, found, memory)
      ensures r.Invalid? ==> !Orderly(found.state)
      ensures old(Steady()) && Orderly(found.state) ==> Steady()
      ensures r.OverLimits? ==> Unfitting(size, limits, found.state)
      ensures reliable ==> r.Opened? || r.Invalid? || r.OverLimits?
    {
      if !Validates(wellFormed, found.state) {
        if Orderly(found.state) {
          OrderlyIsReadable(wellFormed, found.state);
        }
        return Invalid;
      }
      var enforced := EnforceLimits(now, found, found);
      if enforced.None? {
        return OverLimits;
      }
      r := Begin(enforced.value);
    }

    /** What is opened from one reading of the directory. */
    method Read(file: Option<Version>, now: int) returns (r: Opening)
      requires Valid() && !live && Kept(wellFormed, peeked, None, file)
      modifies this`files, this`memory, this`live
      ensures Valid() && live == r.Opened? && !r.Refused?
      ensures r.Opened? ==> files == [Some(memory)] && size(memory.state) <= limits.maxBytes
      ensures r.Opened? ==> if file.None? then memory == Version(FRESH, {}) else Evicted(size, limits, now, file.value, memory)
      ensures r.Invalid? ==> !OrderlyIn(file)
      ensures old(Steady()) && OrderlyIn(file) ==> Steady()
      ensures r.OverLimits? ==> file.Some? && Unfitting(size, limits, file.value.state)
      ensures reliable && (file.None? ==> size(FRESH) <= limits.maxBytes) ==> r.Opened? || r.Invalid? || r.OverLimits?
    {
      var unreadable: bool := *;
      r := Unreadable;
      if file.None? {
        r := Begin(Version(FRESH, {}));
      } else if !unreadable || reliable {
        r := Resume(file.value, now);
      }
    }

    /**
     * openAt: a fresh queue, or the one the file holds, validated and evicted to the new limits.
     * A file whose clock never stepped back is never found invalid.
     */
    method Open(limits: Limits, now: int) returns (r: Opening)
      requires Valid() && !live
      modifies this`files, this`memory, this`live, this`limits
      ensures Valid() && live == r.Opened?
      ensures r.Refused? <==> !limits.Approved()
      ensures r.Opened? ==> this.limits == limits && files == [Some(memory)]
      ensures r.Opened? && old(files[|files| - 1].None?) ==> memory == Version(FRESH, {})
      ensures r.Opened? && old(files[|files| - 1].Some?) ==> Evicted(size, limits, now, old(files[|files| - 1]).value, memory)
      ensures r.Opened? ==> size(memory.state) <= limits.maxBytes
      ensures r.Invalid? ==> !old(Steady())
      ensures old(Steady()) ==> Steady()
      ensures r.OverLimits? ==> old(files[|files| - 1].Some?) && Unfitting(size, limits, old(files[|files| - 1]).value.state)
      ensures reliable && limits.Approved() && size(FRESH) <= limits.maxBytes ==> r.Opened? || r.Invalid? || r.OverLimits?
    {
      if !limits.Approved() {
        return Refused;
      }
      this.limits := limits;
      EachIsKept(wellFormed, peeked, None, files, |files| - 1);
      r := Read(files[|files| - 1], now);
    }

    /** A candidate state, its oldest records evicted until the limits are met. */
    method EnforceLimits(now: int, ghost from: Version, v: Version) returns (r: Option<Version>)
      requires Successor(wellFormed, peeked, from, v) && limits.Approved()
      ensures r.Some? ==> Successor(wellFormed, peeked, from, r.value)
      ensures r.Some? && Orderly(v.state) ==> Orderly(r.value.state)
      ensures r.Some? ==> Evicted(size, limits, now, v, r.value)
      ensures r.None? ==> Unfitting(size, limits, v.state)
    {
      var enforced, k := Enforce(size, limits, now, v.state);
      if enforced.None? {
        assert OverWithNone(size, limits, v.state, k);
        return None;
      }
      EvictingLeadsAhead(wellFormed, peeked, from, v, k);
      if Orderly(v.state) {
        DroppingTimesStaysOrderly(v.state, k);
      }
      EnforcedMeetsTheLimits(size, limits, now, v, k);
      r := Some(v.(state := enforced.value));
    }

    /** The queue with one more observation, evicted to its limits; nothing is written yet. */
    method Admit(e: Envelope) returns (r: Option<Version>)
      requires Valid() && live && e.sequence == memory.state.next && e.gaps == [] && wellFormed(e.body)
      ensures r.Some? ==> Evicted(size, limits, e.observedAt, memory.(state := Enqueued(memory.state, e)), r.value)
      ensures r.Some? ==> Successor(wellFormed, peeked, memory, r.value)
      ensures r.Some? && Steady() && NotBefore(e.observedAt, memory.state) ==> Orderly(r.value.state)
      ensures r.None? ==> Unfitting(size, limits, Enqueued(memory.state, e))
    {
      MemoryIsKept(wellFormed, peeked, Running(), files);
      EnqueuingLeadsAhead(wellFormed, peeked, memory, e);
      if Orderly(memory.state) && NotBefore(e.observedAt, memory.state) {
        EnqueuingStaysOrderly(memory.state, e);
      }
      r := EnforceLimits(e.observedAt, memory, memory.(state := Enqueued(memory.state, e)));
    }

    /** Enqueue: the new observation is stored before it is available, evicting what no longer fits. */
    method Enqueue(body: string, now: int) returns (r: Queued)
      requires Valid() && live
      modifies this`files, this`memory
      ensures Valid()
      ensures r.NotAnObservation? <==> !wellFormed(body)
      ensures !r.Queued? ==> memory == old(memory)
      ensures r.Queued? ==> files == [Some(memory)]
      ensures r.Queued? ==> r.envelope == Envelope(old(memory.state.next), now, body, [])
      ensures r.Queued? ==> Evicted(size, limits, now, old(memory).(state := Enqueued(old(memory.state), r.envelope)), memory)
      ensures old(Steady()) && NotBefore(now, old(memory.state)) ==> Steady()
      ensures r.NothingFits? ==> Unfitting(size, limits, Enqueued(old(memory.state), Envelope(old(memory.state.next), now, body, [])))
      ensures reliable && wellFormed(body) ==> r.Queued? || r.NothingFits?
    {
      if !wellFormed(body) {
        return NotAnObservation;
      }
      var e := Envelope(memory.state.next, now, body, []);
      var candidate := Admit(e);
      if candidate.None? {
        return NothingFits;
      }
      var ok := Commit(candidate.value);
      if !ok {
        return NotQueued;
      }
      r := Queued(e);
    }

    /** Every loss not yet spoken of joins the oldest record, and is stored before anything leaves. */
    method AttachGaps() returns (ok: bool)
      requires Valid() && live && memory.state.pending != []
      modifies this`files, this`memory
      ensures Valid()
      ensures memory == old(memory) || memory == old(memory).(state := WithGapsAttached(old(memory.state)))
      ensures ok ==> memory.state.gaps == [] && HandedOut(old(memory.state), memory.state.pending[0])
      ensures old(Steady()) ==> Steady()
      ensures reliable && size(WithGapsAttached(old(memory.state))) <= limits.maxBytes ==> ok
    {
      MemoryIsKept(wellFormed, peeked, Running(), files);
      OneOfTheTwoIsEmpty(memory.state);
      if memory.state.gaps == [] {
        return true;
      }
      AttachingLeadsAhead(wellFormed, peeked, memory);
      AttachingStaysOrderly(memory.state);
      ok := Commit(memory.(state := WithGapsAttached(memory.state)));
    }

    /** The oldest record, encoded as it stands, once nothing is left to attach. */
    method HandOut() returns (r: Peeked)
      requires Valid() && live && memory.state.pending != [] && memory.state.gaps == []
      modifies this`peeked
      ensures Valid()
      ensures r == if Encodable(wellFormed, length, memory.state.pending[0]) then Peeked(memory.state.pending[0]) else NotEncodable
      ensures peeked == if r.Peeked? then old(peeked)[r.envelope.sequence := r.envelope] else old(peeked)
      ensures r.Peeked? && r.envelope.sequence in old(peeked) ==> r.envelope == old(peeked)[r.envelope.sequence]
      ensures r.NotEncodable? && Steady() ==> length(memory.state.pending[0]) > MAX_MESSAGE_BYTES
    {
      var oldest := memory.state.pending[0];
      r := NotEncodable;
      MemoryIsKept(wellFormed, peeked, Running(), files);
      if Orderly(memory.state) {
        OrderlyIsReadable(wellFormed, memory.state);
      }
      if Encodable(wellFormed, length, oldest) {
        KeptAfterHandingOut(wellFormed, peeked, memory, files);
        peeked := peeked[oldest.sequence := oldest];
        r := Peeked(oldest);
      }
    }

    /**
     * Peek: the oldest envelope, with every loss not yet spoken of attached and stored before its
     * bytes can leave. Whatever happened since, one sequence is only ever handed out as one envelope.
     */
    method Peek() returns (r: Peeked)
      requires Valid() && live
      modifies this`files, this`memory, this`peeked
      ensures Valid()
      ensures r.Empty? <==> old(memory.state.pending) == []
      ensures r.Peeked? && r.envelope.sequence in old(peeked) ==> r.envelope == old(peeked)[r.envelope.sequence]
      ensures peeked == if r.Peeked? then old(peeked)[r.envelope.sequence := r.envelope] else old(peeked)
      ensures r.Peeked? ==> old(memory.state.pending) != [] && HandedOut(old(memory.state), r.envelope)
      ensures r.Peeked? ==> Encodable(wellFormed, length, r.envelope)
      ensures r.NotEncodable? && old(Steady()) ==> memory.state.pending != [] && length(memory.state.pending[0]) > MAX_MESSAGE_BYTES
      ensures old(Steady()) ==> Steady()
      ensures reliable && old(memory.state.pending != [] && size(WithGapsAttached(memory.state)) <= limits.maxBytes) ==> r.Peeked? || r.NotEncodable?
    {
      if memory.state.pending == [] {
        return Empty;
      }
      var ok := AttachGaps();
      r := NotAttached;
      if ok {
        r := HandOut();
      }
    }

    /** Acknowledge: only the exact oldest sequence, which leaves with everything it spoke of. */
    method Acknowledge(sequence: nat, at: int) returns (ok: bool)
      requires Valid() && live
      modifies this`files, this`memory
      ensures Valid()
      ensures ok ==> old(memory.state.pending) != [] && sequence == old(memory.state.pending)[0].sequence && memory == Confirmed(old(memory), at)
      ensures ok ==> files == [Some(memory)]
      ensures !ok ==> memory == old(memory)
      ensures old(memory.state.pending) == [] || old(memory.state.pending)[0].sequence != sequence ==> !ok && files == old(files)
      ensures old(Steady()) ==> Steady()
      ensures reliable && old(memory.state.pending != [] && memory.state.pending[0].sequence == sequence) && size(Confirmed(old(memory), at).state) <= limits.maxBytes ==> ok
    {
      if memory.state.pending == [] || memory.state.pending[0].sequence != sequence {
        return false;
      }
      MemoryIsKept(wellFormed, peeked, Running(), files);
      ConfirmingLeadsAhead(wellFormed, peeked, memory, at);
      ConfirmingStaysOrderly(memory, at);
      var s := memory.state;
      var spoken := set q: nat | 1 <= q < s.pending[0].sequence && Covered(Attached(s), q);
      ok := Commit(Version(s.(pending := s.pending[1..], diary := s.diary.(lastDelivered := Some(at))),
                           memory.acknowledged + {s.pending[0].sequence} + spoken));
    }

    /** SetDeliveryState: only a real transition is written, and it moves no observation. */
    method SetDeliveryState(value: string, at: int) returns (ok: bool)
      requires Valid() && live
      modifies this`files, this`memory
      ensures Valid()
      ensures ok ==> value in ["available", "unavailable"] && memory.state.diary.deliveryState == value
      ensures memory.state == old(memory.state).(diary := memory.state.diary) && memory.acknowledged == old(memory.acknowledged)
      ensures ok && old(memory.state.diary.deliveryState) == value ==> files == old(files) && memory == old(memory)
      ensures old(Steady()) ==> Steady()
      ensures reliable && value in ["available", "unavailable"] && size(Told(old(memory.state), value, at)) <= limits.maxBytes ==> ok
    {
      if value != "available" && value != "unavailable" {
        return false;
      }
      if memory.state.diary.deliveryState == value {
        return true;
      }
      MemoryIsKept(wellFormed, peeked, Running(), files);
      var candidate := memory.(state := Told(memory.state, value, at));
      DiaryMovesNothing(wellFormed, peeked, memory, candidate);
      ok := Commit(candidate);
    }
  }

  /** In every state the buffer reaches, each sequence given out is in exactly one place. */
  lemma NothingIsLostOrTwice(b: Buffer, q: nat)
    requires b.Valid() && b.live
    ensures 1 <= q < b.memory.state.next ==>
              IsPending(b.memory.state, q) != ExactlyOne(Covered(b.memory.state.gaps, q), Covered(Attached(b.memory.state), q), q in b.memory.acknowledged)
    ensures IsPending(b.memory.state, q) || q >= b.memory.state.next || q == 0 ==>
              !Covered(b.memory.state.gaps, q) && !Covered(Attached(b.memory.state), q) && q !in b.memory.acknowledged
  {
    MemoryIsKept(b.wellFormed, b.peeked, b.Running(), b.files);
    Conservation(b.memory, q);
  }

  lemma DiaryMovesNothing(wellFormed: string -> bool, peeked: map<nat, Envelope>, v: Version, w: Version)
    requires Tenable(wellFormed, peeked, v)
    requires w == v.(state := v.state.(diary := w.state.diary))
    ensures Successor(wellFormed, peeked, v, w)
    ensures Orderly(v.state) ==> Orderly(w.state)
  {
    forall q: nat ensures Settled(w, q) {
      assert Settled(v, q);
    }
  }

  lemma EnqueuingStaysOrderly(s: State, e: Envelope)
    requires Queue(s) && Orderly(s) && NotBefore(e.observedAt, s) && e.gaps == []
    ensures Orderly(Enqueued(s, e))
  {
    var t := Enqueued(s, e);
    if s.current.Some? {
      LaterStill(s.gaps, s.current.value.observedAt, e.observedAt);
    }
    forall i | 0 <= i < |t.pending| ensures Before(Attached(t), t.pending[i].observedAt) {
      if i == |s.pending| && s.pending != [] {
        LaterStill(Attached(s), s.pending[0].observedAt, e.observedAt);
      }
    }
  }

  lemma AttachingStaysOrderly(s: State)
    requires Queue(s) && s.pending != [] && s.gaps != []
    ensures Orderly(s) ==> Orderly(WithGapsAttached(s))
  {
    var t := WithGapsAttached(s);
    assert |t.pending| == |s.pending| && Attached(t) == s.gaps;
    assert forall i :: 0 <= i < |s.pending| ==> t.pending[i].observedAt == s.pending[i].observedAt;
  }

  lemma ConfirmingStaysOrderly(v: Version, at: int)
    requires Queue(v.state) && v.state.pending != []
    ensures Orderly(v.state) ==> Orderly(Confirmed(v, at).state)
  {
    assert Attached(Confirmed(v, at).state) == [];
  }
}
