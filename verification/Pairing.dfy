/**
 * The two files of an identity: the authority, and the candidate beside it. Either write may fail,
 * before or after its rename, and the machine may lose whatever the directory was not yet told to keep.
 */
module Pairing {
  import opened Wrappers
  import opened Identities

  /** Both files as one reading of the directory finds them. */
  datatype Disk = Disk(authority: Authority, candidate: Option<Candidate>)

  datatype Activation = Active(revision: nat) | Refused | NotWritten

  datatype Preparation = Prepared(candidate: Candidate) | NotPrepared

  datatype Start = Running | Conflicting | NotFinished

  predicate Sound(d: Disk) { AllLoadable(d.authority, d.candidate) }

  ghost predicate AllSound(versions: seq<Disk>) {
    versions != [] ==> Sound(versions[|versions| - 1]) && AllSound(versions[..|versions| - 1])
  }

  lemma {:induction false} EachIsSound(versions: seq<Disk>, k: nat)
    requires AllSound(versions) && k < |versions|
    ensures Sound(versions[k])
    decreases |versions|
  {
    if k < |versions| - 1 {
      EachIsSound(versions[..|versions| - 1], k);
    }
  }

  lemma OneMore(versions: seq<Disk>, d: Disk)
    requires AllSound(versions) && Sound(d)
    ensures AllSound(versions + [d]) && AllSound([d])
  {
    assert (versions + [d])[..|versions|] == versions && [d][..0] == [];
  }

  /** The receipt a repeated activation is answered from. */
  predicate Answers(r: Receipt, transaction: string, request: string, mode: Option<Mode>, now: int) {
    && r.committedAt >= now - RECEIPT_LIFETIME && r.operation == transaction && r.request == request
    && (mode.Some? ==> r.mode == mode.value)
  }

  class Manager {
    const reliable: bool          // on a reliable disk every change is made and synchronised
    var authority: Authority
    var candidate: Option<Candidate>
    var versions: seq<Disk>       // what the directory may turn out to hold, the one read now last
    var running: bool
    ghost var strayed: bool       // a candidate was prepared while the file was ahead of this process

    constructor (authority: Authority, reliable: bool)
      ensures this.reliable == reliable && Valid() && Agreed() && !strayed && running && this.authority == authority && candidate == None
    {
      this.authority, this.reliable := authority, reliable;
      candidate, versions, running, strayed := None, [Disk(authority, None)], true, false;
    }

    function Found(): Disk
      requires versions != []
      reads this
    {
      versions[|versions| - 1]
    }

    /** The process knows what is on the disk, and nothing else could come back. */
    predicate Agreed()
      reads this
    {
      versions == [Disk(authority, candidate)]
    }

    ghost predicate Valid()
      reads this
    {
      && versions != []
      && (!strayed ==> AllSound(versions))
      && (running && candidate.Some? ==> NamesWhatItReplaces(candidate.value) && Loadable(authority, candidate.value))
      && (running && candidate.Some? ==> Found().candidate.None? || Found().candidate == candidate)
    }

    /** One change of the directory: not made, made, or made and synchronised with all before it. */
    method Change(after: Disk) returns (ok: bool)
      requires versions != []
      modifies this`versions
      ensures ok ==> versions == [after]
      ensures !ok ==> versions == old(versions) || versions == old(versions) + [after]
      ensures old(AllSound(versions)) && Sound(after) ==> AllSound(versions)
      ensures versions != []
      ensures reliable ==> ok
    {
      var made, synchronised: bool := *, *;
      made, synchronised := made || reliable, synchronised || reliable;
      if AllSound(versions) && Sound(after) {
        OneMore(versions, after);
      }
      if !made {
        return false;
      }
      versions := if synchronised then [after] else versions + [after];
      ok := synchronised;
    }

    method RemoveCandidate() returns (ok: bool)
      requires Valid()
      modifies this`versions
      ensures Valid()
      ensures ok ==> Found().candidate.None? && Found().authority == old(Found().authority)
      ensures ok ==> versions == if old(Found().candidate).Some? then [Disk(old(Found().authority), None)] else old(versions)
      ensures versions == old(versions) || versions == [Disk(old(Found().authority), None)] || versions == old(versions) + [Disk(old(Found().authority), None)]
      ensures reliable ==> ok
    {
      if Found().candidate.None? {
        return true;
      }
      ok := Change(Disk(Found().authority, None));
    }

    /** A candidate past its time is withdrawn before anything else is decided. */
    method PruneCandidate(now: int) returns (ok: bool)
      requires Valid() && running
      modifies this`versions, this`candidate
      ensures Valid()
      ensures candidate == old(candidate) || candidate.None?
      ensures old(candidate.None? || now <= candidate.value.expires) ==> ok && versions == old(versions) && candidate == old(candidate)
      ensures ok && candidate.Some? ==> now <= candidate.value.expires
      ensures ok && old(Agreed()) ==> Agreed()
      ensures Found().authority == old(Found().authority)
      ensures Found().candidate == old(Found().candidate) || Found().candidate.None?
      ensures forall d :: d in versions ==> d in old(versions) || d == Disk(old(Found().authority), None)
      ensures reliable ==> ok
    {
      ok := true;
      if candidate.Some? && now > candidate.value.expires {
        ok := RemoveCandidate();
        if ok {
          candidate := None;
        }
      }
    }

    /**
     * The end of Complete and the whole of PrepareDeviceRotation: a candidate for the device known
     * to be active. A rotation asked for again in the same words is answered with the candidate it
     * already has; anything else is refused while one is pending.
     */
    method Prepare(transaction: string, mode: Mode, device: Device, asked: string, expires: int, now: int) returns (r: Preparation)
      requires Valid() && running
      modifies this
      ensures Valid() && running && authority == old(authority)
      ensures r.Prepared? ==> candidate == Some(r.candidate)
      ensures old(Pending(now)) ==> versions == old(versions) && candidate == old(candidate)
                                    && r == if Repeats(candidate.value, transaction, mode, asked) then Prepared(candidate.value) else NotPrepared
      ensures r.Prepared? && !old(Pending(now)) ==>
                r.candidate == Candidate(transaction, mode, FingerprintOf(authority.active), device, asked, expires)
                && candidate == Found().candidate == Some(r.candidate)
      ensures r.Prepared? && old(Agreed()) ==> Agreed()
      ensures strayed ==> old(strayed) || old(Found().authority) != authority
      ensures reliable && !old(Pending(now)) && old(Agreed()) ==>
                (r.Prepared? <==>
                  var c := Candidate(transaction, mode, FingerprintOf(authority.active), device, asked, expires);
                  Loadable(authority, c) && !Committed(authority, c))
    {
      var pruned := PruneCandidate(now);
      if !pruned {
        return NotPrepared;
      }
      if candidate.Some? {
        return if Repeats(candidate.value, transaction, mode, asked) then Prepared(candidate.value) else NotPrepared;
      }
      var c := Candidate(transaction, mode, FingerprintOf(authority.active), device, asked, expires);
      if !Loadable(authority, c) || Committed(authority, c) || Found().candidate.Some? {
        return NotPrepared;
      }
      strayed := strayed || Found().authority != authority;
      var written := Change(Disk(Found().authority, Some(c)));
      if !written {
        return NotPrepared;
      }
      candidate := Some(c);
      r := Prepared(c);
    }

    /** A candidate is held in memory, and its time has not passed. */
    predicate Pending(now: int)
      reads this
    {
      candidate.Some? && now <= candidate.value.expires
    }

    /** A repeated activation is answered from its receipt, and changes nothing. */
    method AnswerFromReceipt(transaction: string, mode: Option<Mode>, presented: string, request: string, now: int) returns (r: Activation)
      ensures r.Active? ==> r.revision == authority.revision && authority.active.Some? && authority.active.value.fingerprint == presented
      ensures r.Active? <==> Answerable(authority, transaction, request, mode, presented, now)
      ensures r.Active? || r.Refused?
    {
      for n := 0 to |authority.receipts|
        invariant forall i :: 0 <= i < n ==> !(Answers(authority.receipts[i], transaction, request, mode, now) && authority.active.Some? && authority.active.value.fingerprint == presented)
      {
        if Answers(authority.receipts[n], transaction, request, mode, now) && authority.active.Some? && authority.active.value.fingerprint == presented {
          return Active(authority.revision);
        }
      }
      r := Refused;
    }

    /** The one write of an activation, and the removal of the candidate it came from. */
    method Replace(c: Candidate, request: string, now: int) returns (r: Activation)
      requires Valid() && running && candidate == Some(c)
      modifies this`versions, this`authority, this`candidate
      ensures Valid()
      ensures r.Refused? ==> authority == old(authority) && candidate == old(candidate) && versions == old(versions)
      ensures !MayActivate(old(authority), c, request, now) ==> r.Refused?
      ensures authority == if candidate.Some? then old(authority) else Activated(old(authority), c, request, now)
      ensures candidate.Some? ==> candidate == old(candidate)
      ensures r.Active? ==> candidate.None? && r.revision == authority.revision && Found() == Disk(authority, None)
      ensures old(Agreed()) ==> AllBetween(old(authority), Activated(old(authority), c, request, now), c, versions)
      ensures forall d :: d in versions ==>
                d in old(versions) || (d.authority == Activated(old(authority), c, request, now) && (d.candidate.None? || d.candidate == old(Found().candidate)))
      ensures r.Active? && old(Agreed()) ==> Agreed()
      ensures reliable && MayActivate(old(authority), c, request, now) ==> r.Active?
    {
      if !MayActivate(authority, c, request, now) {
        if Agreed() {
          AsItWas(authority, Activated(authority, c, request, now), c);
        }
        return Refused;
      }
      ActivationCommits(authority, c, request, now);
      var after := Activated(authority, c, request, now);
      var ok := Change(Disk(after, Found().candidate));
      r := NotWritten;
      if ok {
        authority, candidate := after, None;
        ok := RemoveCandidate();
        if ok {
          r := Active(authority.revision);
        }
      }
    }

    /** activate: the candidate that was asked for becomes the identity, once. */
    method Activate(transaction: string, mode: Option<Mode>, presented: string, request: string, now: int) returns (r: Activation)
      requires Valid() && running
      modifies this`versions, this`authority, this`candidate
      ensures Valid()
      ensures r.Active? ==> r.revision == authority.revision && authority.active.Some? && authority.active.value.fingerprint == presented
      ensures authority.revision <= old(authority.revision) + 1
      ensures authority != old(authority) ==> old(candidate.Some? && Asked(candidate.value, transaction, mode, presented, now))
      ensures authority != old(authority) ==> old(candidate).Some? && authority == Activated(old(authority), old(candidate).value, request, now) && candidate.None?
      ensures old(candidate.None?) ==> authority == old(authority) && candidate.None? && versions == old(versions)
      ensures old(candidate.None?) ==> (r.Active? <==> Answerable(authority, transaction, request, mode, presented, now))
      ensures r.Refused? ==> authority == old(authority)
      ensures r.Active? && old(candidate.Some? && now <= candidate.value.expires) ==> candidate.None? && authority == Activated(old(authority), old(candidate).value, request, now)
      ensures r.Active? && old(Pending(now)) ==> versions != [] && Found() == Disk(authority, None)
      ensures r.Active? && old(Agreed()) ==> Agreed()
      ensures old(Agreed() && candidate.Some? && now <= candidate.value.expires) ==>
                AllBetween(old(authority), Activated(old(authority), old(candidate).value, request, now), old(candidate).value, versions)
      ensures forall d :: d in versions ==>
                d in old(versions) || d == Disk(old(Found().authority), None)
                || (old(candidate).Some? && d.authority == Activated(old(authority), old(candidate).value, request, now)
                    && (d.candidate.None? || d.candidate == old(Found().candidate)))
      ensures candidate == old(candidate) || candidate.None?
      ensures reliable ==> !r.NotWritten?
      ensures reliable && old(Pending(now) && Names(candidate.value, transaction, mode, presented) && MayActivate(authority, candidate.value, request, now)) ==> r.Active?
    {
      var ok := PruneCandidate(now);
      if !ok {
        return NotWritten;
      }
      if candidate.None? {
        r := AnswerFromReceipt(transaction, mode, presented, request, now);
        return;
      }
      var c := candidate.value;
      if !Asked(c, transaction, mode, presented, now) {
        if Agreed() {
          AsItWas(authority, Activated(authority, c, request, now), c);
        }
        return Refused;
      }
      r := Replace(c, request, now);
    }

    method Crash(power: bool)
      requires Valid()
      modifies this`versions, this`running
      ensures Valid() && !running
      ensures Found() in old(versions)
      ensures versions == old(versions) || |versions| == 1
      ensures authority == old(authority) && candidate == old(candidate)
      ensures forall d :: d in versions ==> d in old(versions)
      ensures !power ==> versions == old(versions)
      ensures power ==> |versions| == 1
    {
      running := false;
      if power {
        var k :| 0 <= k < |versions|;
        if !strayed {
          EachIsSound(versions, k);
          OneMore([], versions[k]);
        }
        versions := [versions[k]];
      }
    }

    /**
     * A start reads the authority, then the candidate beside it, which it finishes if it was
     * committed. It is only ever refused over a candidate that was prepared for another identity
     * than the one the file already held.
     */
    method Open() returns (r: Start)
      requires Valid() && !running
      modifies this`authority, this`candidate, this`running, this`versions
      ensures Valid() && running == r.Running?
      ensures r.Conflicting? ==> strayed && old(Found().candidate.Some? && !Loadable(Found().authority, Found().candidate.value))
      ensures forall d :: d in versions ==> d in old(versions) || d == Disk(old(Found().authority), None)
      ensures r.Running? ==> authority == Found().authority == old(Found().authority)
      ensures r.Running? ==> candidate == old(if Found().candidate.Some? && Committed(Found().authority, Found().candidate.value) then None else Found().candidate)
      ensures r.Running? ==> Found().candidate == candidate
      ensures reliable ==> !r.NotFinished?
      ensures r.Running? || r.NotFinished? ==> old(AllLoadable(Found().authority, Found().candidate))
    {
      var found := Found();
      authority, candidate := found.authority, None;
      if found.candidate.Some? && !Loadable(found.authority, found.candidate.value) {
        return Conflicting;
      }
      if found.candidate.Some? && Committed(found.authority, found.candidate.value) {
        running := RemoveCandidate();
        r := if running then Running else NotFinished;
        return;
      }
      running, candidate, r := true, found.candidate, Running;
    }

    /**
     * An activation that stops anywhere, then a start: it finds no conflict, and either the former
     * identity stands with the same candidate beside it, or the new one with its receipt and no candidate.
     */
    method ActivateThenCrash(transaction: string, mode: Option<Mode>, presented: string, request: string, now: int, power: bool) returns (r: Activation, start: Start)
      requires Valid() && running && Agreed() && candidate.Some? && now <= candidate.value.expires && Unused(authority, candidate.value)
      modifies this
      ensures Valid() && running == start.Running?
      ensures !start.Conflicting?
      ensures start.Running? ==> Stands(old(authority), old(candidate).value, request, now, authority, candidate)
      ensures start.Running? && r.Active? ==> authority.revision == r.revision && candidate.None?
    {
      ActivationCommits(authority, candidate.value, request, now);
      r := Activate(transaction, mode, presented, request, now);
      Crash(power);
      start := Open();
    }

    /** The request that was answered by an activation, sent again within a day, is answered the same. */
    method AskTwice(transaction: string, mode: Option<Mode>, presented: string, request: string, now: int, later: int)
      returns (first: Activation, again: Activation)
      requires Valid() && running && Pending(now) && later <= now + RECEIPT_LIFETIME
      modifies this`versions, this`authority, this`candidate
      ensures Valid()
      ensures first.Active? ==> again == first && again.revision == old(authority.revision) + 1
      ensures first.Active? ==> candidate.None? && Found() == Disk(authority, None) && authority.active == Some(old(candidate).value.device)
    {
      ghost var before, c := authority, candidate.value;
      first := Activate(transaction, mode, presented, request, now);
      again := first;
      if first.Active? {
        ActivationIsAnswerable(before, c, transaction, mode, presented, request, now, later);
        again := Activate(transaction, mode, presented, request, later);
      }
    }

    /** Every file there may be, and the process where one runs, are where a request for this candidate
        leads when it was asked at these times. */
    ghost predicate Led(before: Authority, c: Candidate, request: string, times: set<int>)
      requires versions != []
      reads this
    {
      && (forall d :: d in versions ==> Along(before, c, request, times, d))
      && (running ==> OneStep(before, c, request, times, authority) && (candidate.None? || (candidate == Some(c) && authority == before)))
    }

    /** The process or the machine dies, and another start follows. */
    method Restart(power: bool, ghost before: Authority, ghost c: Candidate, ghost request: string, ghost times: set<int>) returns (start: Start)
      requires Valid() && Led(before, c, request, times) && NamesWhatItReplaces(c) && Loadable(before, c) && !Committed(before, c)
      modifies this
      ensures Valid() && Led(before, c, request, times) && !start.Conflicting? && running == start.Running?
    {
      Crash(power);
      AlongIsLoadable(before, c, request, times, Found());
      start := Open();
    }

    /** The request is sent once more, to a process that runs; once the identity has moved by a recent
        one, it is answered, and nothing is written. */
    method AskAgain(transaction: string, mode: Option<Mode>, presented: string, request: string, now: int,
                    ghost before: Authority, ghost c: Candidate, ghost times: set<int>)
      returns (r: Activation)
      requires Valid() && running && Led(before, c, request, times)
      requires presented == c.device.fingerprint && transaction == c.transaction && (mode.Some? ==> mode.value == c.mode) && Unused(before, c)
      modifies this`versions, this`authority, this`candidate
      ensures Valid() && Led(before, c, request, times + {now})
      ensures r.Active? ==> r.revision == before.revision + 1 && authority.revision == r.revision
      ensures old(authority) != before && (forall t :: t in times ==> now <= t + RECEIPT_LIFETIME) ==>
                r == Active(before.revision + 1) && versions == old(versions) && authority == old(authority)
    {
      ghost var held, read, known := versions, Found(), authority;
      assert read in held && Along(before, c, request, times, read);
      r := Activate(transaction, mode, presented, request, now);
      forall d | d in versions ensures Along(before, c, request, times + {now}, d) {
        assert d in held || d == Disk(read.authority, None) || d.authority == Activated(before, c, request, now);
        assert d in held ==> Along(before, c, request, times, d);
      }
      if known != before {
        ghost var t :| t in times && known == Activated(before, c, request, t);
        if now <= t + RECEIPT_LIFETIME {
          ActivationIsAnswerable(before, c, transaction, mode, presented, request, t, now);
        }
      }
    }

    /**
     * The same request, sent any number of times through any number of crashes and starts: no start
     * ever finds a conflict, every answer names the one revision after, and the identity has moved
     * by that one activation at most. Once it has moved and a process runs, the request is answered
     * each time it is sent within a day of every time it was sent before.
     */
    method AskThroughCrashes(transaction: string, mode: Option<Mode>, presented: string, request: string, rounds: seq<Round>)
      returns (starts: seq<Start>, answers: seq<Option<Activation>>, moved: seq<bool>)
      requires Valid() && running && Agreed() && candidate.Some?
      requires presented == candidate.value.device.fingerprint && transaction == candidate.value.transaction
      requires (mode.Some? ==> mode.value == candidate.value.mode) && Unused(authority, candidate.value)
      modifies this
      ensures Valid() && Conflicting !in starts
      ensures |answers| == |rounds| && |moved| == |rounds| + 1 && !moved[0] && moved[|rounds|] == (running && authority.revision != old(authority.revision))
      ensures forall n :: 0 <= n < |rounds| && answers[n].Some? && answers[n].value.Active? ==>
                answers[n].value.revision == old(authority.revision) + 1 && moved[n + 1]
      ensures forall n :: 0 <= n < |rounds| && rounds[n].Ask? && moved[n] && InTime(rounds, n) ==>
                answers[n] == Some(Active(old(authority.revision) + 1)) && moved[n + 1]
      ensures running && authority != old(authority) ==>
                authority.active == Some(old(candidate).value.device) && authority.revision == old(authority.revision) + 1 && candidate.None?
    {
      ghost var before, c, times := authority, candidate.value, {};
      starts, answers, moved := [], [], [false];
      var revision := authority.revision;
      for n := 0 to |rounds|
        invariant Valid() && Led(before, c, request, times) && Conflicting !in starts
        invariant forall t :: t in times ==> exists k :: 0 <= k < n && rounds[k] == Ask(t)
        invariant |answers| == n && |moved| == n + 1 && !moved[0] && moved[n] == (running && authority.revision != before.revision)
        invariant forall k :: 0 <= k < n && answers[k].Some? && answers[k].value.Active? ==>
                    answers[k].value.revision == before.revision + 1 && moved[k + 1]
        invariant forall k :: 0 <= k < n && rounds[k].Ask? && moved[k] && InTime(rounds, k) ==>
                    answers[k] == Some(Active(before.revision + 1)) && moved[k + 1]
      {
        var answer: Option<Activation> := None;
        match rounds[n] {
          case Cut(power) =>
            var start := Restart(power, before, c, request, times);
            starts := starts + [start];
          case Ask(now) =>
            if running {
              var r := AskAgain(transaction, mode, presented, request, now, before, c, times);
              answer := Some(r);
              times := times + {now};
            }
        }
        answers, moved := answers + [answer], moved + [running && authority.revision != revision];
      }
    }
  }

  /** Every time the request was sent before is less than the life of a receipt ago. */
  predicate InTime(rounds: seq<Round>, n: nat)
    requires n < |rounds| && rounds[n].Ask?
  {
    forall k :: 0 <= k < n && rounds[k].Ask? ==> rounds[n].now <= rounds[k].now + RECEIPT_LIFETIME
  }

  /** The active device presents itself, and a receipt of the last day is of this very request. */
  predicate Answerable(a: Authority, transaction: string, request: string, mode: Option<Mode>, presented: string, now: int) {
    && a.active.Some? && a.active.value.fingerprint == presented
    && exists i :: 0 <= i < |a.receipts| && Answers(a.receipts[i], transaction, request, mode, now)
  }

  lemma ActivationIsAnswerable(a: Authority, c: Candidate, transaction: string, mode: Option<Mode>, presented: string, request: string, now: int, later: int)
    requires (mode.Some? ==> mode.value == c.mode) && transaction == c.transaction && presented == c.device.fingerprint
    requires later <= now + RECEIPT_LIFETIME
    ensures Answerable(Activated(a, c, request, now), transaction, request, mode, presented, later)
  {
    var after := Activated(a, c, request, now);
    assert Answers(after.receipts[|after.receipts| - 1], transaction, request, mode, later);
  }

  /** One thing that may happen to a request that is sent until it is answered. */
  datatype Round = Ask(now: int) | Cut(power: bool)

  /** The rotation that prepared this candidate, asked for again. */
  predicate Repeats(c: Candidate, transaction: string, mode: Mode, asked: string) {
    c.mode.Rotation? && mode.Rotation? && c.transaction == transaction && c.asked == asked
  }

  /** A candidate whose certificate was just issued: no device and no receipt carries it yet. */
  predicate Unused(a: Authority, c: Candidate) {
    !Committed(a, c) && FingerprintOf(a.active) != Some(c.device.fingerprint)
  }

  /** A request names this candidate: its operation, its mode where one is said, its own certificate. */
  predicate Names(c: Candidate, transaction: string, mode: Option<Mode>, presented: string) {
    c.transaction == transaction && c.device.fingerprint == presented && (mode == None || mode == Some(c.mode))
  }

  /** What was asked for is this candidate, and its own certificate is presented in its time. */
  predicate Asked(c: Candidate, transaction: string, mode: Option<Mode>, presented: string, now: int) {
    && (mode.Some? ==> c.mode == mode.value) && c.transaction == transaction && now <= c.expires
    && c.device.fingerprint == presented
  }

  /** The two states a start may find after an activation that stopped anywhere. */
  predicate Stands(before: Authority, c: Candidate, request: string, now: int, authority: Authority, candidate: Option<Candidate>) {
    || (authority == before && candidate == Some(c))
    || (authority == Activated(before, c, request, now) && Committed(authority, c) && candidate.None?)
  }

  /** The authority as it was, or one activation of the candidate further, at one of these times. */
  ghost predicate OneStep(before: Authority, c: Candidate, request: string, times: set<int>, authority: Authority) {
    authority == before || exists t :: t in times && authority == Activated(before, c, request, t)
  }

  ghost predicate Along(before: Authority, c: Candidate, request: string, times: set<int>, d: Disk) {
    OneStep(before, c, request, times, d.authority) && (d.candidate.None? || d.candidate == Some(c))
  }

  lemma AlongIsLoadable(before: Authority, c: Candidate, request: string, times: set<int>, d: Disk)
    requires Along(before, c, request, times, d) && NamesWhatItReplaces(c) && Loadable(before, c) && !Committed(before, c)
    ensures d.candidate.Some? ==> Loadable(d.authority, c) && (Committed(d.authority, c) <==> d.authority != before)
  {
    if d.authority != before {
      var t :| t in times && d.authority == Activated(before, c, request, t);
      ActivationCommits(before, c, request, t);
    }
  }

  /** Either file of an activation that may have stopped anywhere. */
  predicate Between(before: Authority, after: Authority, c: Candidate, d: Disk) {
    d == Disk(before, Some(c)) || d == Disk(after, Some(c)) || d == Disk(after, None)
  }

  predicate AllBetween(before: Authority, after: Authority, c: Candidate, versions: seq<Disk>) {
    forall i :: 0 <= i < |versions| ==> Between(before, after, c, versions[i])
  }

  lemma AsItWas(before: Authority, after: Authority, c: Candidate)
    ensures AllBetween(before, after, c, [Disk(before, Some(c))])
  {
  }
}
