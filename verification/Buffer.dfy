/** What a state of the queue must be to be read back and sent, and what one operation makes of it. */
module Buffers {
  import opened Wrappers
  import opened Gaps
  import opened Delivery

  // ---- Reading a state back

  /** What the wire contract asks of the gaps one envelope carries. */
  predicate Carried(gaps: seq<Gap>, sequence: nat) {
    gaps != [] ==>
      && Last(gaps).Valid() && Last(gaps).last < sequence
      && (Front(gaps) != [] ==> Last(Front(gaps)).last < Last(gaps).first)
      && Carried(Front(gaps), sequence)
  }

  predicate EnvelopeValid(wellFormed: string -> bool, e: Envelope) {
    e.sequence != 0 && wellFormed(e.body) && Carried(e.gaps, e.sequence)
  }

  /** Envelope.Encode: a valid envelope within the size of one message. */
  predicate Encodable(wellFormed: string -> bool, length: Envelope -> nat, e: Envelope) {
    EnvelopeValid(wellFormed, e) && length(e) <= MAX_MESSAGE_BYTES
  }

  /** validateState, on what a state file holds. */
  predicate Validates(wellFormed: string -> bool, s: State) {
    && s.next != 0
    && (forall i :: 0 <= i < |s.pending| ==> EnvelopeValid(wellFormed, s.pending[i]) && s.pending[i].sequence < s.next)
    && (forall i :: 0 < i < |s.pending| ==> s.pending[i - 1].sequence < s.pending[i].sequence)
    && (s.current.Some? ==> EnvelopeValid(wellFormed, s.current.value) && s.current.value.sequence < s.next)
    && AllValid(s.gaps)
  }

  /** What a validation vouches for: sequences in their order and all given out already, and no interval reversed. */
  lemma {:induction false} ValidatedIsOrdered(wellFormed: string -> bool, s: State, i: nat, j: nat)
    requires Validates(wellFormed, s) && i < j < |s.pending|
    ensures 1 <= s.pending[i].sequence < s.pending[j].sequence < s.next
    decreases j
  {
    if i < j - 1 {
      ValidatedIsOrdered(wellFormed, s, i, j - 1);
    }
  }

  ghost predicate WellFormed(wellFormed: string -> bool, s: State) {
    && (forall i :: 0 <= i < |s.pending| ==> wellFormed(s.pending[i].body))
    && (s.current.Some? ==> wellFormed(s.current.value.body))
  }

  lemma {:induction false} NormalGapsAreCarriedIff(gaps: seq<Gap>, sequence: nat)
    requires Normal(gaps) && Below(gaps, sequence)
    ensures Carried(gaps, sequence) <==> AllValid(gaps)
    decreases |gaps|
  {
    if gaps != [] {
      NormalGapsAreCarriedIff(Front(gaps), sequence);
    }
  }

  /** A state this queue wrote is read back exactly when no interval it holds is reversed. */
  lemma ReadableIff(wellFormed: string -> bool, s: State)
    requires Queue(s) && WellFormed(wellFormed, s)
    ensures Validates(wellFormed, s) <==> AllValid(s.gaps) && AllValid(Attached(s))
  {
    if s.pending != [] {
      NormalGapsAreCarriedIff(s.pending[0].gaps, Head(s));
      forall i | 0 <= i < |s.pending| ensures Carried(s.pending[i].gaps, s.pending[i].sequence) <==> i > 0 || AllValid(Attached(s)) {
        assert i > 0 ==> s.pending[i].gaps == [];
      }
      assert Validates(wellFormed, s) ==> EnvelopeValid(wellFormed, s.pending[0]);
    }
  }

  // ---- A clock that does not step back

  predicate Before(gaps: seq<Gap>, t: int) { gaps != [] ==> Last(gaps).lastAt <= t && Before(Front(gaps), t) }

  /** The instants the queue remembers do not decrease along its sequences. */
  ghost predicate Orderly(s: State) {
    && AllValid(s.gaps) && AllValid(Attached(s))
    && (forall i, j :: 0 <= i < j < |s.pending| ==> s.pending[i].observedAt <= s.pending[j].observedAt)
    && (forall i :: 0 <= i < |s.pending| ==> Before(s.gaps, s.pending[i].observedAt) && Before(Attached(s), s.pending[i].observedAt))
    && (s.current.None? ==> s.pending == [] && s.gaps == [])
    && (s.current.Some? ==> Before(s.gaps, s.current.value.observedAt))
    && (forall i :: s.current.Some? && 0 <= i < |s.pending| ==> s.pending[i].observedAt <= s.current.value.observedAt)
  }

  /** What a caller can check: the clock reads no earlier than at the last observation. */
  predicate NotBefore(now: int, s: State) { s.current.Some? ==> s.current.value.observedAt <= now }

  lemma {:induction false} ExtendedBefore(gaps: seq<Gap>, g: Gap, t: int)
    requires gaps != [] ==> Last(gaps).Counted()
    requires Before(gaps, g.lastAt) && g.lastAt <= t
    ensures Before(Extended(gaps, g), t)
  {
    LaterStill(gaps, g.lastAt, t);
    if gaps == [] || Last(gaps).last + 1 < g.first {
      Appended(gaps, g);
    } else {
      Appended(Front(gaps), Merged(Last(gaps), g));
    }
  }

  lemma {:induction false} LaterStill(gaps: seq<Gap>, earlier: int, later: int)
    requires Before(gaps, earlier) && earlier <= later
    ensures Before(gaps, later)
    decreases |gaps|
  {
    if gaps != [] {
      LaterStill(Front(gaps), earlier, later);
    }
  }

  lemma DroppingStaysOrderly(s: State)
    requires Queue(s) && Orderly(s) && s.pending != []
    ensures Orderly(Dropped(s))
  {
    OneOfTheTwoIsEmpty(s);
    var all, g := s.gaps + Attached(s), GapOf(s.pending[0]);
    assert all == s.gaps || all == Attached(s);
    ExtendingStaysValidIff(all, g);
    var d := Dropped(s);
    DroppingKeepsTheQueue(s);
    forall i | 0 <= i < |d.pending| ensures Before(d.gaps, d.pending[i].observedAt) {
      ExtendedBefore(all, g, s.pending[i + 1].observedAt);
    }
    if s.current.Some? {
      ExtendedBefore(all, g, s.current.value.observedAt);
    }
  }

  lemma {:induction false} DroppingTimesStaysOrderly(s: State, k: nat)
    requires Queue(s) && Orderly(s) && k <= |s.pending|
    ensures Orderly(DroppedTimes(s, k))
    decreases k
  {
    if k > 0 {
      DroppingTimesStaysOrderly(s, k - 1);
      DroppingStaysOrderly(DroppedTimes(s, k - 1));
    }
  }

  /** A queue whose clock never stepped back can always be read again. */
  lemma OrderlyIsReadable(wellFormed: string -> bool, s: State)
    requires Queue(s) && WellFormed(wellFormed, s) && Orderly(s)
    ensures Validates(wellFormed, s)
    ensures forall i :: 0 <= i < |s.pending| ==> EnvelopeValid(wellFormed, s.pending[i])
  {
    ReadableIff(wellFormed, s);
  }

  /** Such a queue's oldest record can be sent exactly when it fits in one message. */
  lemma OrderlyIsEncodableIff(wellFormed: string -> bool, length: Envelope -> nat, s: State)
    requires Queue(s) && WellFormed(wellFormed, s) && Orderly(s) && s.pending != []
    ensures Encodable(wellFormed, length, s.pending[0]) <==> length(s.pending[0]) <= MAX_MESSAGE_BYTES
  {
    OrderlyIsReadable(wellFormed, s);
  }

  // ---- What one operation makes of a state

  function Enqueued(s: State, e: Envelope): State {
    s.(next := s.next + 1, current := Some(e), pending := s.pending + [e])
  }

  function WithGapsAttached(s: State): State
    requires s.pending != []
  {
    s.(pending := [s.pending[0].(gaps := s.gaps)] + s.pending[1..], gaps := [])
  }

  /** The oldest record leaves the queue, confirmed together with every loss it spoke of. */
  ghost function Confirmed(v: Version, at: int): Version
    requires v.state.pending != []
  {
    var s := v.state;
    Version(s.(pending := s.pending[1..], diary := s.diary.(lastDelivered := Some(at))),
            v.acknowledged + {s.pending[0].sequence} + set q: nat | 1 <= q < s.pending[0].sequence && Covered(Attached(s), q))
  }

  lemma EnqueuingKeepsAccounts(v: Version, e: Envelope)
    requires Accounted(v) && e.sequence == v.state.next && e.gaps == []
    ensures Accounted(v.(state := Enqueued(v.state, e))) && Head(Enqueued(v.state, e)) == Head(v.state)
  {
    var after := v.(state := Enqueued(v.state, e));
    assert Attached(after.state) == Attached(v.state);
    forall q: nat ensures Settled(after, q) {
      assert Settled(v, q);
    }
  }

  lemma AttachingKeepsAccounts(v: Version)
    requires Accounted(v) && v.state.gaps != [] && v.state.pending != []
    ensures Accounted(v.(state := WithGapsAttached(v.state)))
    ensures Head(WithGapsAttached(v.state)) == Head(v.state)
  {
    var after := v.(state := WithGapsAttached(v.state));
    assert Attached(v.state) == [] && Attached(after.state) == v.state.gaps;
    forall q: nat ensures Settled(after, q) {
      assert Settled(v, q);
    }
  }

  lemma ConfirmingKeepsAccounts(v: Version, at: int)
    requires Accounted(v) && v.state.pending != []
    ensures Accounted(Confirmed(v, at)) && Head(Confirmed(v, at).state) == Head(v.state) + 1
  {
    var after := Confirmed(v, at);
    assert Attached(after.state) == [];
    forall q: nat ensures Settled(after, q) {
      assert Settled(v, q);
      if Covered(Attached(v.state), q) {
        CoveredAreBelow(Attached(v.state), Head(v.state), q);
      }
      if Covered(v.state.gaps, q) {
        CoveredAreBelow(v.state.gaps, Head(v.state), q);
      }
    }
  }
}
