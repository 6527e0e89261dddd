/**
 * The one-shot approval: several Auxiliaries contend on one lock and one small file, and a process
 * or the whole machine may stop between any two steps of any of them.
 */
module Replay {
  import opened Wrappers
  import opened Base64
  import opened Envelopes

  const WRAP := 0x1_0000_0000_0000_0000

  datatype Position = Position(infrastructure: Text, machine: Text, epoch: Uint64, sequence: Uint64)

  /** The order positions are spent in: by epoch, then by sequence. */
  predicate Before(p: Position, q: Position) { p.epoch < q.epoch || (p.epoch == q.epoch && p.sequence < q.sequence) }

  /** What one Auxiliary was started with. */
  datatype Ticket = Ticket(anchor: Anchor, signed: Signed, subject: Subject, now: Uint64)

  /** Every check of accept that precedes the spending of the sequence. */
  predicate Admissible(verifies: (seq<Byte>, seq<Byte>, seq<Byte>) -> bool, t: Ticket) {
    && Valid(t.signed.envelope) && Binds(t.anchor, t.signed.envelope)
    && Reaches(t.subject, t.signed.envelope) && InItsWindow(t.signed.envelope, t.now)
    && var key := DecodeRawURL(t.anchor.publicKey, PUBLIC_KEY_BYTES); key.Some? && SignedBy(verifies, t.signed, key.value)
  }

  /** Named one by one: what an approval that reaches the lock has been held to. */
  lemma AdmissibleIff(verifies: (seq<Byte>, seq<Byte>, seq<Byte>) -> bool, t: Ticket)
    requires Valid(t.signed.envelope)
    ensures var e := t.signed.envelope;
            var key, transcript, signature := DecodeRawURL(t.anchor.publicKey, PUBLIC_KEY_BYTES), Transcript(e), DecodeRawURL(t.signed.signature, SIGNATURE_BYTES);
            Admissible(verifies, t) <==>
              && e.infrastructure == t.anchor.infrastructure && e.machine == t.anchor.machine
              && e.epoch == t.anchor.epoch && e.publicKey == t.anchor.publicKey
              && (t.subject.AppliedMutation? <==> MUTATE in e.privileges)
              && e.issuedAt <= t.now && t.now < e.expiresAt
              && transcript.Some? && signature.Some? && verifies(key.value, transcript.value, signature.value)
  {
    ExactlyOneSubject(t.signed.envelope);
    TranscriptIsParsed(t.signed.envelope);
    if t.signed.envelope.publicKey == t.anchor.publicKey {
      var key := DecodeRawURL(t.anchor.publicKey, PUBLIC_KEY_BYTES).value;
      OneSpellingPerByteString(t.anchor.publicKey, PUBLIC_KEY_BYTES, key);
    }
  }

  /** In every run, what was accepted was bound to its machine, in its window, and signed under the anchored key. */
  lemma AcceptedWasAdmissible(verifies: (seq<Byte>, seq<Byte>, seq<Byte>) -> bool, steps: seq<Step>, i: nat)
    requires i < |Run(t => Admissible(verifies, t), START, steps).accepted|
    ensures var a := Run(t => Admissible(verifies, t), START, steps).accepted[i];
            var e := a.t.signed.envelope;
            && e.machine == a.t.anchor.machine && e.infrastructure == a.t.anchor.infrastructure && e.epoch == a.t.anchor.epoch
            && e.issuedAt <= a.t.now < e.expiresAt && a.position == Named(a.t)
            && Transcript(e).Some? && DecodeRawURL(a.t.signed.signature, SIGNATURE_BYTES).Some?
            && DecodeRawURL(a.t.anchor.publicKey, PUBLIC_KEY_BYTES).Some?
            && verifies(DecodeRawURL(a.t.anchor.publicKey, PUBLIC_KEY_BYTES).value, Transcript(e).value, DecodeRawURL(a.t.signed.signature, SIGNATURE_BYTES).value)
  {
    var check := t => Admissible(verifies, t);
    AcceptIsStrict(verifies);
    RunKeeps(check, START, steps);
    var a := Run(check, START, steps).accepted[i];
    assert check(a.t);
    AdmissibleIff(verifies, a.t);
  }

  /** The checks an Auxiliary makes before it reaches the lock: what they are does not matter below,
      as long as they let no sequence of zero through. */
  type Check = Ticket -> bool

  ghost predicate Strict(check: Check) { forall t :: check(t) ==> t.signed.envelope.sequence > 0 }

  /** The one sequence this machine may accept next, or nothing. */
  function Successor(current: Option<Position>, t: Ticket): Option<Position> {
    var e := t.signed.envelope;
    var next := Position(t.anchor.infrastructure, t.anchor.machine, e.epoch, e.sequence);
    if current.None? then (if e.sequence != 1 then None else Some(next))
    else if current.value.infrastructure != t.anchor.infrastructure || current.value.machine != t.anchor.machine then None
    else if e.epoch < current.value.epoch then None
    else if e.epoch > current.value.epoch then (if e.sequence != 1 then None else Some(next))
    else if e.sequence != (current.value.sequence + 1) % WRAP then None
    else Some(next)
  }

  /** The state file as a reader finds it: a rename over an unsynchronised file could leave it torn. */
  datatype File = Absent | Whole(position: Position) | Torn

  datatype Temporary = Temporary(position: Option<Position>, synchronised: bool)

  /** Where one Auxiliary is inside Consume. */
  datatype Phase =
    | Idle
    | Locked(t: Ticket)
    | Knows(t: Ticket, current: Option<Position>)
    | Ready(t: Ticket, next: Position)
    | Created(t: Ticket, next: Position)
    | Written(t: Ticket, next: Position)
    | Synchronised(t: Ticket, next: Position)
    | Renamed(t: Ticket, next: Position)

  datatype Acceptance = Acceptance(t: Ticket, position: Position)

  /** `files` are the contents the file may turn out to have after a power cut, the one read now last. */
  datatype System = System(
    files: seq<File>,
    temporary: Option<Temporary>,
    holder: Option<nat>,
    phases: map<nat, Phase>,
    accepted: seq<Acceptance>,
    published: set<(Uint64, Uint64)>
  )

  datatype Step =
    | Acquire(p: nat, t: Ticket)
    | Read(p: nat)
    | Decide(p: nat)
    | Create(p: nat)
    | Write(p: nat)
    | Synchronise(p: nat)
    | Rename(p: nat)
    | SynchroniseDirectory(p: nat)
    | Fail(p: nat, cleaned: bool)
    | Die(p: nat)
    | PowerCut(survivor: nat, temporaryKept: bool)

  function PhaseOf(s: System, p: nat): Phase { if p in s.phases then s.phases[p] else Idle }

  function Visible(s: System): File
    requires s.files != []
  {
    s.files[|s.files| - 1]
  }

  function Stored(f: File): Option<Position> { if f.Whole? then Some(f.position) else None }

  function At(s: System, p: nat, phase: Phase): System { s.(phases := s.phases[p := phase]) }

  /** The lock is released by whoever held it. */
  function Released(s: System, p: nat): System {
    s.(phases := s.phases[p := Idle], holder := if s.holder == Some(p) then None else s.holder)
  }

  /** One step of one Auxiliary, a process that dies, or a power cut; a step out of turn changes nothing. */
  function Next(check: Check, s: System, step: Step): (r: System)
    requires s.files != []
    ensures r.files != []
  {
    match step
    case Acquire(p, t) =>
      if PhaseOf(s, p).Idle? && check(t) && s.holder.None? then At(s, p, Locked(t)).(holder := Some(p)) else s
    case Read(p) =>
      if !PhaseOf(s, p).Locked? then s
      else if Visible(s).Torn? then Released(s, p)
      else At(s, p, Knows(PhaseOf(s, p).t, Stored(Visible(s))))
    case Decide(p) =>
      if !PhaseOf(s, p).Knows? then s
      else
        var next := Successor(PhaseOf(s, p).current, PhaseOf(s, p).t);
        if next.None? then Released(s, p) else At(s, p, Ready(PhaseOf(s, p).t, next.value))
    case Create(p) =>
      if !PhaseOf(s, p).Ready? then s
      else At(s, p, Created(PhaseOf(s, p).t, PhaseOf(s, p).next)).(temporary := Some(Temporary(None, false)))
    case Write(p) =>
      if !PhaseOf(s, p).Created? then s
      else At(s, p, Written(PhaseOf(s, p).t, PhaseOf(s, p).next)).(temporary := Some(Temporary(Some(PhaseOf(s, p).next), false)))
    case Synchronise(p) =>
      if !PhaseOf(s, p).Written? || s.temporary.None? then s
      else At(s, p, Synchronised(PhaseOf(s, p).t, PhaseOf(s, p).next)).(temporary := Some(s.temporary.value.(synchronised := true)))
    case Rename(p) =>
      if !PhaseOf(s, p).Synchronised? || s.temporary.None? then s
      else
        var whole := s.temporary.value.synchronised && s.temporary.value.position.Some?;
        var file := if whole then Whole(s.temporary.value.position.value) else Torn;
        At(s, p, Renamed(PhaseOf(s, p).t, PhaseOf(s, p).next)).(files := s.files + [file], temporary := None,
            published := if whole then s.published + {(file.position.epoch, file.position.sequence)} else s.published)
    case SynchroniseDirectory(p) =>
      if !PhaseOf(s, p).Renamed? then s
      else Released(s, p).(files := [Visible(s)], accepted := s.accepted + [Acceptance(PhaseOf(s, p).t, PhaseOf(s, p).next)])
    case Fail(p, cleaned) =>
      if PhaseOf(s, p).Idle? then s
      else Released(s, p).(temporary := if cleaned then None else s.temporary)
    case Die(p) => Released(s, p)
    case PowerCut(survivor, temporaryKept) =>
      s.(files := [s.files[survivor % |s.files|]], temporary := if temporaryKept then s.temporary else None,
         holder := None, phases := map[])
  }

  const START := System([Absent], None, None, map[], [], {})

  // ---- What every reachable state keeps

  /** Every sequence of an epoch from 1 to n. */
  predicate Series(published: set<(Uint64, Uint64)>, epoch: Uint64, n: Uint64) {
    n == 0 || ((epoch, n) in published && Series(published, epoch, n - 1))
  }

  ghost predicate Complete(published: set<(Uint64, Uint64)>) {
    forall p :: p in published ==> p.1 > 0 && Series(published, p.0, p.1)
  }

  lemma {:induction false} SeriesGrows(published: set<(Uint64, Uint64)>, more: set<(Uint64, Uint64)>, epoch: Uint64, n: Uint64)
    requires Series(published, epoch, n) && published <= more
    ensures Series(more, epoch, n)
  {
    if n > 0 {
      SeriesGrows(published, more, epoch, n - 1);
    }
  }

  /** A file that is whole, published, and no earlier than anything accepted. */
  predicate Kept(s: System, f: File) {
    match f
    case Absent => s.accepted == []
    case Torn => false
    case Whole(position) =>
      && position.sequence > 0 && (position.epoch, position.sequence) in s.published
      && (s.accepted != [] ==> !Before(position, Latest(s)))
  }

  function Latest(s: System): Position
    requires s.accepted != []
  {
    s.accepted[|s.accepted| - 1].position
  }

  ghost predicate AllKept(s: System) { s.files != [] && forall i :: 0 <= i < |s.files| ==> Kept(s, s.files[i]) }

  /** Only the holder of the lock is anywhere inside Consume. */
  ghost predicate Exclusive(s: System) { forall p :: p in s.phases && !s.phases[p].Idle? ==> s.holder == Some(p) }

  /** What the holder of the lock knows is still so: nothing moved the file under it. */
  predicate Current(check: Check, s: System, phase: Phase)
    requires s.files != []
  {
    match phase
    case Idle => true
    case Locked(t) => check(t)
    case Knows(t, current) => check(t) && current == Stored(Visible(s))
    case Ready(t, next) => check(t) && Successor(Stored(Visible(s)), t) == Some(next)
    case Created(t, next) => check(t) && Successor(Stored(Visible(s)), t) == Some(next)
    case Written(t, next) =>
      && check(t) && Successor(Stored(Visible(s)), t) == Some(next)
      && s.temporary == Some(Temporary(Some(next), false))
    case Synchronised(t, next) =>
      && check(t) && Successor(Stored(Visible(s)), t) == Some(next)
      && s.temporary == Some(Temporary(Some(next), true))
    case Renamed(t, next) =>
      && check(t) && next == Named(t) && Visible(s) == Whole(next)
      && (s.accepted != [] ==> Before(Latest(s), next))
  }

  function Named(t: Ticket): Position {
    Position(t.anchor.infrastructure, t.anchor.machine, t.signed.envelope.epoch, t.signed.envelope.sequence)
  }

  /** Acceptances of admissible approvals, each strictly after the one before. */
  ghost predicate Spent(check: Check, accepted: seq<Acceptance>) {
    && (forall i :: 0 <= i < |accepted| ==> check(accepted[i].t) && accepted[i].position == Named(accepted[i].t))
    && (forall i :: 0 < i < |accepted| ==> Before(accepted[i - 1].position, accepted[i].position))
  }

  ghost predicate Inv(check: Check, s: System) {
    && AllKept(s) && Exclusive(s) && Complete(s.published) && Spent(check, s.accepted)
    && (s.holder.Some? ==> Current(check, s, PhaseOf(s, s.holder.value)))
  }

  lemma SuccessorComesAfter(current: Option<Position>, t: Ticket)
    requires t.signed.envelope.sequence > 0 && Successor(current, t).Some?
    requires current.Some? ==> current.value.sequence > 0
    ensures var next := Successor(current, t).value;
            && next == Named(t) && next.sequence > 0
            && (current.Some? ==> Before(current.value, next))
            && (next.sequence == 1 || (current.Some? && current.value.epoch == next.epoch && current.value.sequence == next.sequence - 1))
  {
  }

  /** The rename publishes the successor of the position the lock protected, and tears nothing. */
  lemma RenamingKeeps(check: Check, s: System, p: nat)
    requires Strict(check) && Inv(check, s) && PhaseOf(s, p).Synchronised?
    ensures Inv(check, Next(check, s, Rename(p)))
  {
    var after := Next(check, s, Rename(p));
    var next := PhaseOf(s, p).next;
    SuccessorComesAfter(Stored(Visible(s)), PhaseOf(s, p).t);
    assert Kept(s, Visible(s));
    assert after.files == s.files + [Whole(next)];
    var key := (next.epoch, next.sequence);
    forall q | q in after.published ensures q.1 > 0 && Series(after.published, q.0, q.1) {
      if q in s.published {
        SeriesGrows(s.published, after.published, q.0, q.1);
      } else if q.1 > 1 {
        SeriesGrows(s.published, after.published, q.0, q.1 - 1);
      }
    }
    forall i | 0 <= i < |after.files| ensures Kept(after, after.files[i]) {
      assert i < |s.files| ==> Kept(s, s.files[i]);
    }
  }

  /** The approval is accepted once its position is the only one a power cut could bring back. */
  lemma AcceptingKeeps(check: Check, s: System, p: nat)
    requires Strict(check) && Inv(check, s) && PhaseOf(s, p).Renamed?
    ensures Inv(check, Next(check, s, SynchroniseDirectory(p)))
    ensures Next(check, s, SynchroniseDirectory(p)).files == [Whole(PhaseOf(s, p).next)]
  {
    var after := Next(check, s, SynchroniseDirectory(p));
    assert Kept(s, Visible(s));
    assert after.accepted[..|s.accepted|] == s.accepted;
  }

  lemma PowerCutKeeps(check: Check, s: System, survivor: nat, temporaryKept: bool)
    requires Strict(check) && Inv(check, s)
    ensures Inv(check, Next(check, s, PowerCut(survivor, temporaryKept)))
  {
    assert Kept(s, s.files[survivor % |s.files|]);
  }

  lemma DecidingKeeps(check: Check, s: System, step: Step)
    requires Strict(check) && Inv(check, s) && (step.Acquire? || step.Read? || step.Decide?)
    ensures Inv(check, Next(check, s, step))
  {
    assert Kept(s, Visible(s));
  }

  lemma CreatingKeeps(check: Check, s: System, p: nat)
    requires Strict(check) && Inv(check, s)
    ensures Inv(check, Next(check, s, Create(p)))
  {
  }

  lemma WritingKeeps(check: Check, s: System, p: nat)
    requires Strict(check) && Inv(check, s)
    ensures Inv(check, Next(check, s, Write(p)))
  {
  }

  lemma SynchronisingKeeps(check: Check, s: System, p: nat)
    requires Strict(check) && Inv(check, s)
    ensures Inv(check, Next(check, s, Synchronise(p)))
  {
  }

  /** Whoever leaves Consume without an acceptance moves no file and releases what it held. */
  lemma ReleasingKeeps(check: Check, s: System, p: nat, temporary: Option<Temporary>)
    requires Inv(check, s) && (s.holder == None || s.holder == Some(p) || temporary == s.temporary)
    ensures Inv(check, Released(s, p).(temporary := temporary))
  {
    var after := Released(s, p).(temporary := temporary);
    forall i | 0 <= i < |after.files| ensures Kept(after, after.files[i]) {
      assert Kept(s, s.files[i]);
    }
  }

  lemma FailingKeeps(check: Check, s: System, p: nat, cleaned: bool)
    requires Strict(check) && Inv(check, s)
    ensures Inv(check, Next(check, s, Fail(p, cleaned)))
  {
    if !PhaseOf(s, p).Idle? {
      ReleasingKeeps(check, s, p, if cleaned then None else s.temporary);
    }
  }

  lemma DyingKeeps(check: Check, s: System, p: nat)
    requires Strict(check) && Inv(check, s)
    ensures Inv(check, Next(check, s, Die(p)))
  {
    ReleasingKeeps(check, s, p, s.temporary);
  }

  /** Any step of any Auxiliary, at any moment, keeps all of it. */
  lemma NextKeeps(check: Check, s: System, step: Step)
    requires Strict(check) && Inv(check, s)
    ensures Inv(check, Next(check, s, step))
  {
    match step {
      case Acquire(_, _) => DecidingKeeps(check, s, step);
      case Read(_) => DecidingKeeps(check, s, step);
      case Decide(_) => DecidingKeeps(check, s, step);
      case Create(p) => CreatingKeeps(check, s, p);
      case Write(p) => WritingKeeps(check, s, p);
      case Synchronise(p) => SynchronisingKeeps(check, s, p);
      case Rename(p) =>
        if PhaseOf(s, p).Synchronised? {
          RenamingKeeps(check, s, p);
        }
      case SynchroniseDirectory(p) =>
        if PhaseOf(s, p).Renamed? {
          AcceptingKeeps(check, s, p);
        }
      case Fail(p, cleaned) => FailingKeeps(check, s, p, cleaned);
      case Die(p) => DyingKeeps(check, s, p);
      case PowerCut(survivor, kept) => PowerCutKeeps(check, s, survivor, kept);
    }
  }

  /** Where any interleaving of steps leads. */
  function Run(check: Check, s: System, steps: seq<Step>): (r: System)
    requires s.files != []
    ensures r.files != []
    decreases |steps|
  {
    if steps == [] then s
    else Run(check, Next(check, s, steps[0]), steps[1..])
  }

  lemma {:induction false} RunKeeps(check: Check, s: System, steps: seq<Step>)
    requires Strict(check) && Inv(check, s)
    ensures Inv(check, Run(check, s, steps))
    decreases |steps|
  {
    if steps != [] {
      NextKeeps(check, s, steps[0]);
      RunKeeps(check, Next(check, s, steps[0]), steps[1..]);
    }
  }

  // ---- What one Auxiliary that nothing stops comes to

  /** Every step of Consume, in its order. */
  function Consuming(p: nat, t: Ticket): seq<Step> {
    [Acquire(p, t), Read(p), Decide(p)] + [Create(p), Write(p), Synchronise(p)] + [Rename(p), SynchroniseDirectory(p)]
  }

  /** The first sequence of an epoch where nothing was spent, or of a later one; else the next. */
  predicate NextInLine(f: File, t: Ticket) {
    var e := t.signed.envelope;
    match f
    case Absent => e.sequence == 1
    case Torn => false
    case Whole(held) =>
      && held.infrastructure == t.anchor.infrastructure && held.machine == t.anchor.machine
      && ((e.epoch == held.epoch && e.sequence == held.sequence + 1 && e.sequence < WRAP) || (e.epoch > held.epoch && e.sequence == 1))
  }

  lemma {:induction false} RunInTurn(check: Check, s: System, first: seq<Step>, second: seq<Step>)
    requires s.files != []
    ensures Run(check, s, first).files != [] && Run(check, s, first + second) == Run(check, Run(check, s, first), second)
    decreases |first|
  {
    if first == [] {
      assert first + second == second;
    } else {
      assert (first + second)[1..] == first[1..] + second;
      RunInTurn(check, Next(check, s, first[0]), first[1..], second);
    }
  }

  lemma OneStepFirst(check: Check, s: System, step: Step, more: seq<Step>)
    requires s.files != []
    ensures Run(check, s, [step] + more) == Run(check, Next(check, s, step), more)
  {
    assert ([step] + more)[0] == step && ([step] + more)[1..] == more;
  }

  lemma TwoSteps(check: Check, s: System, a: Step, b: Step)
    requires s.files != []
    ensures Run(check, s, [a, b]) == Next(check, Next(check, s, a), b)
  {
    var t := Next(check, s, a);
    OneStepFirst(check, s, a, [b]);
    OneStepFirst(check, t, b, []);
    assert [a, b] == [a] + [b] && [b] == [b] + [];
  }

  lemma ThreeSteps(check: Check, s: System, a: Step, b: Step, c: Step)
    requires s.files != []
    ensures Run(check, s, [a, b, c]) == Next(check, Next(check, Next(check, s, a), b), c)
  {
    OneStepFirst(check, s, a, [b, c]);
    TwoSteps(check, Next(check, s, a), b, c);
    assert [a, b, c] == [a] + [b, c];
  }

  /** The lock taken and the file read: what is known is what the file holds. */
  lemma Knowing(check: Check, s: System, p: nat, t: Ticket)
    requires Strict(check) && Inv(check, s) && s.holder.None? && PhaseOf(s, p).Idle? && check(t)
    ensures var k := Next(check, Next(check, s, Acquire(p, t)), Read(p));
            k == s.(phases := k.phases, holder := Some(p)) && PhaseOf(k, p) == Knows(t, Stored(Visible(s))) && !Visible(s).Torn?
  {
    assert Kept(s, Visible(s));
    var locked := Next(check, s, Acquire(p, t));
    assert PhaseOf(locked, p) == Locked(t) && locked == s.(phases := locked.phases, holder := Some(p));
  }

  lemma SuccessorIfNextInLine(f: File, t: Ticket)
    requires t.signed.envelope.sequence > 0 && !f.Torn?
    ensures Successor(Stored(f), t) == if NextInLine(f, t) then Some(Named(t)) else None
  {
  }

  lemma Deciding(check: Check, s: System, p: nat, t: Ticket, current: Option<Position>)
    requires s.files != [] && PhaseOf(s, p) == Knows(t, current) && s.holder == Some(p)
    ensures var d := Next(check, s, Decide(p));
            && d == s.(phases := d.phases, holder := d.holder) && (Successor(current, t).None? ==> d.holder.None?)
            && PhaseOf(d, p) == (if Successor(current, t).Some? then Ready(t, Successor(current, t).value) else Idle)
  {
  }

  /** Where the lock is free and the checks are passed, the decision is ready or the lock is free again. */
  lemma Decided(check: Check, s: System, p: nat, t: Ticket)
    requires Strict(check) && Inv(check, s) && s.holder.None? && PhaseOf(s, p).Idle? && check(t)
    ensures var d := Run(check, s, [Acquire(p, t), Read(p), Decide(p)]);
            && d == s.(phases := d.phases, holder := d.holder) && PhaseOf(d, p) == (if NextInLine(Visible(s), t) then Ready(t, Named(t)) else Idle)
            && (!NextInLine(Visible(s), t) ==> d.holder.None?)
  {
    var first, second, third := Acquire(p, t), Read(p), Decide(p);
    Knowing(check, s, p, t);
    SuccessorIfNextInLine(Visible(s), t);
    Deciding(check, Next(check, Next(check, s, first), second), p, t, Stored(Visible(s)));
    ThreeSteps(check, s, first, second, third);
  }

  /** A position that is ready is written, synchronised, and renamed into place. */
  lemma Published(check: Check, s: System, p: nat, t: Ticket)
    requires s.files != [] && PhaseOf(s, p) == Ready(t, Named(t))
    ensures var w := Run(check, s, [Create(p), Write(p), Synchronise(p)]);
            && w.files == s.files && w.accepted == s.accepted && PhaseOf(w, p) == Synchronised(t, Named(t))
            && w.temporary == Some(Temporary(Some(Named(t)), true))
  {
    ThreeSteps(check, s, Create(p), Write(p), Synchronise(p));
  }

  lemma Renames(check: Check, s: System, p: nat, t: Ticket)
    requires s.files != [] && PhaseOf(s, p) == Synchronised(t, Named(t)) && s.temporary == Some(Temporary(Some(Named(t)), true))
    ensures var r := Next(check, s, Rename(p));
            PhaseOf(r, p) == Renamed(t, Named(t)) && r.accepted == s.accepted && Visible(r) == Whole(Named(t))
  {
  }

  lemma Accepts(check: Check, s: System, p: nat, t: Ticket)
    requires s.files != [] && PhaseOf(s, p) == Renamed(t, Named(t)) && Visible(s) == Whole(Named(t))
    ensures var r := Next(check, s, SynchroniseDirectory(p));
            r.files == [Whole(Named(t))] && r.accepted == s.accepted + [Acceptance(t, Named(t))]
  {
  }

  lemma Spends(check: Check, s: System, p: nat, t: Ticket)
    requires s.files != [] && PhaseOf(s, p) == Synchronised(t, Named(t)) && s.temporary == Some(Temporary(Some(Named(t)), true))
    ensures var r := Run(check, s, [Rename(p), SynchroniseDirectory(p)]);
            r.files == [Whole(Named(t))] && r.accepted == s.accepted + [Acceptance(t, Named(t))]
  {
    var first, second := Rename(p), SynchroniseDirectory(p);
    Renames(check, s, p, t);
    Accepts(check, Next(check, s, first), p, t);
    TwoSteps(check, s, first, second);
  }

  predicate InsideConsume(step: Step) { step.Create? || step.Write? || step.Synchronise? || step.Rename? || step.SynchroniseDirectory? }

  lemma {:induction false} NothingElseHappens(check: Check, s: System, p: nat, steps: seq<Step>)
    requires s.files != [] && PhaseOf(s, p).Idle?
    requires forall step :: step in steps ==> InsideConsume(step) && step.p == p
    ensures Run(check, s, steps) == s
    decreases |steps|
  {
    if steps != [] {
      assert steps[0] in steps;
      NothingElseHappens(check, s, p, steps[1..]);
    }
  }

  /**
   * In every state, with the lock free, an Auxiliary that passed its checks and that nothing stops
   * is accepted exactly when its position is the next in line; otherwise nothing moved.
   */
  lemma AcceptedIffNextInLine(check: Check, s: System, p: nat, t: Ticket)
    requires Strict(check) && Inv(check, s) && s.holder.None? && PhaseOf(s, p).Idle? && check(t)
    ensures var r := Run(check, s, Consuming(p, t));
            if NextInLine(Visible(s), t) then r.accepted == s.accepted + [Acceptance(t, Named(t))] && r.files == [Whole(Named(t))]
            else r.accepted == s.accepted && r.files == s.files
  {
    var deciding, writing, placing := [Acquire(p, t), Read(p), Decide(p)], [Create(p), Write(p), Synchronise(p)], [Rename(p), SynchroniseDirectory(p)];
    RunInTurn(check, s, deciding + writing, placing);
    RunInTurn(check, s, deciding, writing);
    Decided(check, s, p, t);
    var d := Run(check, s, deciding);
    if NextInLine(Visible(s), t) {
      Published(check, d, p, t);
      Spends(check, Run(check, d, writing), p, t);
    } else {
      NothingElseHappens(check, d, p, writing);
      NothingElseHappens(check, d, p, placing);
    }
  }

  /** A machine that never accepted anything accepts the first sequence of any epoch. */
  lemma TheFirstIsAccepted(check: Check, p: nat, t: Ticket)
    requires Strict(check) && check(t) && t.signed.envelope.sequence == 1
    ensures Run(check, START, Consuming(p, t)).accepted == [Acceptance(t, Named(t))]
  {
    RunKeeps(check, START, []);
    AcceptedIffNextInLine(check, START, p, t);
  }

  // ---- What that means for every run

  lemma {:induction false} LaterIsAfter(check: Check, accepted: seq<Acceptance>, i: nat, j: nat)
    requires Spent(check, accepted) && i < j < |accepted|
    ensures Before(accepted[i].position, accepted[j].position)
    decreases j
  {
    if i < j - 1 {
      LaterIsAfter(check, accepted, i, j - 1);
    }
  }

  /** No two acceptances of one run are of one position, and each is of an approval that was checked. */
  lemma NoPositionIsAcceptedTwice(check: Check, steps: seq<Step>, i: nat, j: nat)
    requires Strict(check)
    requires i < |Run(check, START, steps).accepted| && j < |Run(check, START, steps).accepted| && i != j
    ensures var accepted := Run(check, START, steps).accepted;
            && check(accepted[i].t) && accepted[i].position == Named(accepted[i].t)
            && accepted[i].position != accepted[j].position
            && (i < j <==> Before(accepted[i].position, accepted[j].position))
  {
    RunKeeps(check, START, steps);
    var accepted := Run(check, START, steps).accepted;
    if i < j {
      LaterIsAfter(check, accepted, i, j);
    } else {
      LaterIsAfter(check, accepted, j, i);
    }
  }

  /** Whatever a power cut brings back is whole, and is at or after every position ever accepted. */
  lemma NothingAcceptedIsForgotten(check: Check, steps: seq<Step>, k: nat, i: nat)
    requires Strict(check)
    requires k < |Run(check, START, steps).files| && i < |Run(check, START, steps).accepted|
    ensures var s := Run(check, START, steps);
            s.files[k].Whole? && !Before(s.files[k].position, s.accepted[i].position)
  {
    RunKeeps(check, START, steps);
    NothingIsForgottenIn(check, Run(check, START, steps), k, i);
  }

  lemma NothingIsForgottenIn(check: Check, s: System, k: nat, i: nat)
    requires Inv(check, s) && k < |s.files| && i < |s.accepted|
    ensures s.files[k].Whole? && !Before(s.files[k].position, s.accepted[i].position)
  {
    assert Kept(s, s.files[k]);
    if i < |s.accepted| - 1 {
      LaterIsAfter(check, s.accepted, i, |s.accepted| - 1);
    }
  }

  /** Whatever position the file names, every sequence of its epoch from 1 to it was spent before. */
  lemma SpentWithoutAHole(check: Check, steps: seq<Step>, k: nat)
    requires Strict(check)
    requires k < |Run(check, START, steps).files| && Run(check, START, steps).files[k].Whole?
    ensures var s := Run(check, START, steps);
            s.files[k].position.sequence > 0 && Series(s.published, s.files[k].position.epoch, s.files[k].position.sequence)
  {
    RunKeeps(check, START, steps);
    var s := Run(check, START, steps);
    assert Kept(s, s.files[k]);
  }

  /** The last sequence of an epoch has no successor: the counter does not wrap back to a spent one. */
  lemma TheCounterDoesNotWrap(current: Position, t: Ticket)
    requires current.sequence == WRAP - 1 && t.signed.envelope.epoch == current.epoch && t.signed.envelope.sequence > 0
    ensures Successor(Some(current), t) == None
  {
  }

  /** With the checks of accept, all of this holds of the product: they let no sequence of zero through. */
  lemma AcceptIsStrict(verifies: (seq<Byte>, seq<Byte>, seq<Byte>) -> bool)
    ensures Strict(t => Admissible(verifies, t))
  {
  }
}
