/** The identity of the one device a Controller answers to, and the candidate that may replace it. */
module Identities {
  import opened Wrappers

  const MAX_REVOKED := 64
  const MAX_RECEIPTS := 32
  const MAX_REVISION := 0xFFFF_FFFF_FFFF_FFFF
  const RECEIPT_LIFETIME := 24 * 3600 * 1_000_000_000

  datatype Mode = Enrollment | Recovery | Rotation

  /** A device as its certificate names it; everything else of the record is its keys. */
  datatype Device = Device(fingerprint: string, keys: string)

  datatype Receipt = Receipt(operation: string, request: string, mode: Mode, revision: nat, fingerprint: string, committedAt: int)

  datatype Authority = Authority(active: Option<Device>, revoked: set<Device>, revision: nat, receipts: seq<Receipt>)

  /** `asked` is the digest of the request that prepared it. */
  datatype Candidate = Candidate(transaction: string, mode: Mode, previous: Option<string>, device: Device, asked: string, expires: int)

  /** An enrollment replaces nothing; a recovery and a rotation name what they replace. */
  predicate NamesWhatItReplaces(c: Candidate) { c.mode.Enrollment? <==> c.previous.None? }

  function FingerprintOf(d: Option<Device>): Option<string> { if d.Some? then Some(d.value.fingerprint) else None }

  predicate IsReceiptOf(r: Receipt, c: Candidate) {
    r.operation == c.transaction && r.mode == c.mode && r.fingerprint == c.device.fingerprint
  }

  /** candidateReceiptExists: the authority already carries the outcome of this very candidate. */
  predicate Committed(a: Authority, c: Candidate) { exists r :: r in a.receipts && IsReceiptOf(r, c) }

  /** decodeDurableCandidate, as far as the authority beside it decides. */
  predicate Loadable(a: Authority, c: Candidate) {
    if c.mode.Enrollment? then
      && c.previous.None?
      && (a.active.Some? ==> Committed(a, c) && a.active.value.fingerprint == c.device.fingerprint)
    else
      && c.previous.Some? && a.active.Some?
      && (Some(a.active.value.fingerprint) != c.previous ==> Committed(a, c) && a.active.value.fingerprint == c.device.fingerprint)
  }

  predicate AllLoadable(a: Authority, c: Option<Candidate>) { c.Some? ==> Loadable(a, c.value) }

  /** Receipts are kept for a day. */
  function Recent(receipts: seq<Receipt>, now: int): seq<Receipt> {
    if receipts == [] then []
    else if receipts[|receipts| - 1].committedAt >= now - RECEIPT_LIFETIME then Recent(receipts[..|receipts| - 1], now) + [receipts[|receipts| - 1]]
    else Recent(receipts[..|receipts| - 1], now)
  }

  /** Exactly the receipts of the last day stay, each as often as it was there. */
  lemma {:induction false} RecentKeepsExactly(receipts: seq<Receipt>, now: int, r: Receipt)
    ensures multiset(Recent(receipts, now))[r] == if r.committedAt >= now - RECEIPT_LIFETIME then multiset(receipts)[r] else 0
    decreases |receipts|
  {
    if receipts != [] {
      var front, last := receipts[..|receipts| - 1], receipts[|receipts| - 1];
      RecentKeepsExactly(front, now, r);
      assert receipts == front + [last];
    }
  }

  /** And in their order: what stays of a list is what stays of its head, then what stays of its tail. */
  lemma {:induction false} RecentOfBoth(earlier: seq<Receipt>, later: seq<Receipt>, now: int)
    ensures Recent(earlier + later, now) == Recent(earlier, now) + Recent(later, now)
    decreases |later|
  {
    if later == [] {
      assert earlier + later == earlier;
    } else {
      var front := later[..|later| - 1];
      assert (earlier + later)[..|earlier + later| - 1] == earlier + front;
      RecentOfBoth(earlier, front, now);
    }
  }

  /** And no more than thirty-two of them, the oldest leaving first. */
  function WithReceipt(receipts: seq<Receipt>, r: Receipt, now: int): seq<Receipt> { Remaining(receipts, now) + [r] }

  function Remaining(receipts: seq<Receipt>, now: int): seq<Receipt> {
    var recent := Recent(receipts, now);
    if |recent| == MAX_RECEIPTS then recent[1..] else recent
  }

  method KeepRecent(receipts: seq<Receipt>, now: int) returns (kept: seq<Receipt>)
    ensures kept == Recent(receipts, now)
  {
    kept := [];
    for n := 0 to |receipts|
      invariant kept == Recent(receipts[..n], now)
    {
      assert receipts[..n + 1][..n] == receipts[..n];
      if receipts[n].committedAt >= now - RECEIPT_LIFETIME {
        kept := kept + [receipts[n]];
      }
    }
    assert receipts[..|receipts|] == receipts;
  }

  predicate Replaces(a: Authority, c: Candidate) {
    if c.mode.Enrollment? then a.active.None?
    else a.active.Some? && c.previous == Some(a.active.value.fingerprint) && |a.revoked| < MAX_REVOKED
  }

  predicate OperationsDiffer(receipts: seq<Receipt>) {
    forall i, j :: 0 <= i < j < |receipts| ==> receipts[i].operation != receipts[j].operation
  }

  /** The authority once a candidate is its active device: the former one is revoked in the same write. */
  function Activated(a: Authority, c: Candidate, request: string, now: int): Authority {
    Authority(
      Some(c.device),
      if a.active.Some? then a.revoked + {a.active.value} else a.revoked,
      a.revision + 1,
      WithReceipt(a.receipts, Receipt(c.transaction, request, c.mode, a.revision + 1, c.device.fingerprint, now), now))
  }

  /** What validateAuthorityState asks of the lists. */
  predicate Validates(a: Authority) {
    |a.revoked| <= MAX_REVOKED && |a.receipts| <= MAX_RECEIPTS && OperationsDiffer(a.receipts)
  }

  /** activateCandidate, up to its write. */
  predicate MayActivate(a: Authority, c: Candidate, request: string, now: int) {
    && Replaces(a, c) && a.revision < MAX_REVISION
    && (a.active.Some? ==> a.active.value !in a.revoked)
    && Validates(Activated(a, c, request, now))
  }

  lemma {:induction false} RecentStayApart(receipts: seq<Receipt>, now: int)
    requires OperationsDiffer(receipts)
    ensures OperationsDiffer(Recent(receipts, now)) && |Recent(receipts, now)| <= |receipts|
    ensures forall r :: r in Recent(receipts, now) ==> r in receipts
    decreases |receipts|
  {
    if receipts != [] {
      var front, last := receipts[..|receipts| - 1], receipts[|receipts| - 1];
      RecentStayApart(front, now);
      assert forall r :: r in front ==> r.operation != last.operation;
    }
  }

  /**
   * Beside a well-kept authority, exactly which candidates may become the identity: a first device
   * where there is none, or the successor of the one that is active, with room to revoke it; with a
   * revision left, and under an operation no remaining receipt is of.
   */
  lemma MayActivateIff(a: Authority, c: Candidate, request: string, now: int)
    requires Validates(a) && (a.active.Some? ==> a.active.value !in a.revoked)
    ensures MayActivate(a, c, request, now) <==>
              && (c.mode == Enrollment ==> a.active.None?)
              && (c.mode != Enrollment ==> a.active.Some? && c.previous == Some(a.active.value.fingerprint) && |a.revoked| <= 63)
              && a.revision <= 0xFFFF_FFFF_FFFF_FFFE
              && forall r :: r in Remaining(a.receipts, now) ==> r.operation != c.transaction
  {
    RecentStayApart(a.receipts, now);
    var after, remaining := Activated(a, c, request, now), Remaining(a.receipts, now);
    assert after.receipts[|remaining|].operation == c.transaction;
    forall i | 0 <= i < |remaining| ensures after.receipts[i] == remaining[i] && remaining[i] in remaining {
    }
    if OperationsDiffer(after.receipts) {
      forall r | r in remaining ensures r.operation != c.transaction {
        var i :| 0 <= i < |remaining| && remaining[i] == r;
        assert after.receipts[i].operation != after.receipts[|remaining|].operation;
      }
    }
  }

  /** An activation leaves its receipt, and the candidate it came from reads as committed beside it. */
  lemma ActivationCommits(a: Authority, c: Candidate, request: string, now: int)
    requires NamesWhatItReplaces(c)
    ensures var after := Activated(a, c, request, now);
            && Committed(after, c) && Loadable(after, c) && after.active == Some(c.device)
            && Receipt(c.transaction, request, c.mode, a.revision + 1, c.device.fingerprint, now) in after.receipts
            && after.revision == a.revision + 1 && (a.active.Some? ==> a.active.value in after.revoked)
  {
    var after := Activated(a, c, request, now);
    var r := after.receipts[|after.receipts| - 1];
    assert r in after.receipts && IsReceiptOf(r, c);
  }

  /**
   * A candidate prepared for one authority is loadable beside another exactly when that one has the
   * same active device, as long as it carries no outcome of the candidate.
   */
  lemma PreparedIsLoadableIff(known: Authority, found: Authority, c: Candidate)
    requires NamesWhatItReplaces(c)
    requires c.previous == FingerprintOf(known.active) && !Committed(found, c)
    ensures Loadable(found, c) <==> FingerprintOf(found.active) == FingerprintOf(known.active)
  {
  }

  /** One that carries its outcome is loadable exactly beside its own device, or the one it replaces. */
  lemma CommittedIsLoadableIff(found: Authority, c: Candidate)
    requires NamesWhatItReplaces(c) && Committed(found, c)
    ensures Loadable(found, c) <==>
              if found.active.None? then c.mode == Enrollment
              else found.active.value.fingerprint == c.device.fingerprint || c.previous == Some(found.active.value.fingerprint)
  {
  }

  /**
   * The identity a replacement leaves cannot load a candidate prepared for the one it replaced: a
   * process that goes on after an activation it believes failed must not prepare another.
   */
  lemma TheReplacedIdentityCannotPrepare(a: Authority, c: Candidate, later: Candidate, request: string, now: int)
    requires NamesWhatItReplaces(later) && later.previous == FingerprintOf(a.active)
    requires FingerprintOf(a.active) != Some(c.device.fingerprint) && !Committed(Activated(a, c, request, now), later)
    ensures !Loadable(Activated(a, c, request, now), later)
  {
    PreparedIsLoadableIff(a, Activated(a, c, request, now), later);
  }
}
