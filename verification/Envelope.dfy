/** A human approval: what a valid one is, the bytes it is signed over, and the two subjects it may reach. */
module Envelopes {
  import opened Wrappers
  import opened Base64
  import opened Transcripts

  function Ascii(s: string): (t: Text)
    ensures |t| == |s|
  {
    seq(|s|, i requires 0 <= i < |s| => s[i] as int % 256)
  }

  type Uint64 = n: int | 0 <= n < 0x1_0000_0000_0000_0000

  const LENGTH_BYTES: nat := 4
  const SCHEMA_VERSION := 1
  const TRANSCRIPT_DOMAIN := Ascii("your-cloud/approval-envelope.v1") + [0]
  const DIGEST_BYTES := 32
  const PUBLIC_KEY_BYTES := 32
  const SIGNATURE_BYTES := 64
  const MAX_LIFETIME_SECONDS := 900
  const MAX_PRIVILEGES := 2

  const DIAGNOSE := Ascii("diagnose_protocol_read_only")
  const READ := Ascii("read_local_state")
  const MUTATE := Ascii("mutate_local_state")

  const MUTATING := [
    Ascii("deploy_oci_probe"), Ascii("remove_oci_probe"),
    Ascii("deploy_web_service"), Ascii("remove_web_service"),
    Ascii("deploy_entrypoint"), Ascii("remove_entrypoint"),
    Ascii("publish_route"), Ascii("retire_route"),
    Ascii("prepare_link"), Ascii("withdraw_link"),
    Ascii("attach_link_peer"), Ascii("detach_link_peer"),
    Ascii("join_link_peer"), Ascii("leave_link_peer"),
    Ascii("deploy_private_service"), Ascii("remove_private_service"),
    Ascii("publish_link_route"), Ascii("retire_link_route"),
    Ascii("snapshot_service"), Ascii("discard_snapshot"), Ascii("restore_service"),
    Ascii("deploy_user_service"), Ascii("remove_user_service")
  ]

  datatype Envelope = Envelope(
    schema: int,
    infrastructure: Text,
    machine: Text,
    epoch: Uint64,
    sequence: Uint64,
    operation: Text,
    plan: Text,
    rollback: Text,
    privileges: seq<Text>,
    issuedAt: Uint64,
    expiresAt: Uint64,
    publicKey: Text
  )

  // ---- The three closed spellings

  predicate LowerHex(c: Byte) { 48 <= c <= 57 || 97 <= c <= 102 }

  predicate CanonicalDigest(t: Text) { |t| == 2 * DIGEST_BYTES && forall c :: c in t ==> LowerHex(c) }

  predicate CanonicalMachine(t: Text) {
    && 3 <= |t| <= 63
    && t[0] != 45
    && forall c :: c in t ==> 97 <= c <= 122 || 48 <= c <= 57 || c == 45
  }

  predicate CanonicalUUIDv4(t: Text) {
    && |t| == 36
    && (forall i :: 0 <= i < 36 ==> if i in {8, 13, 18, 23} then t[i] == 45 else LowerHex(t[i]))
    && t[14] == 52 && t[19] in {56, 57, 97, 98}
  }

  // ---- Hexadecimal, as the standard library reads and writes it

  type Nibble = n: int | 0 <= n < 16

  function HexDigit(v: Nibble): Byte { if v < 10 then 48 + v else 97 + v - 10 }

  function HexValue(c: Byte): Option<Nibble> {
    if 48 <= c <= 57 then Some(c - 48)
    else if 97 <= c <= 102 then Some(c - 87)
    else if 65 <= c <= 70 then Some(c - 55)
    else None
  }

  function HexEncode(b: seq<Byte>): Text {
    if b == [] then [] else [HexDigit(b[0] / 16), HexDigit(b[0] % 16)] + HexEncode(b[1..])
  }

  function HexDecode(t: Text): Option<seq<Byte>> {
    if |t| == 0 then Some([])
    else if |t| == 1 || HexValue(t[0]).None? || HexValue(t[1]).None? then None
    else
      var rest := HexDecode(t[2..]);
      if rest.None? then None else Some([HexValue(t[0]).value * 16 + HexValue(t[1]).value] + rest.value)
  }

  lemma LowerDigit(c: Byte)
    requires LowerHex(c)
    ensures HexValue(c).Some? && HexDigit(HexValue(c).value) == c
  {
  }

  lemma EncodedFrom(high: Nibble, low: Nibble, rest: seq<Byte>)
    ensures HexEncode([high * 16 + low] + rest) == [HexDigit(high), HexDigit(low)] + HexEncode(rest)
  {
    assert ([high * 16 + low] + rest)[1..] == rest;
  }

  lemma DecodedFrom(t: Text, rest: seq<Byte>)
    requires |t| >= 2 && HexValue(t[0]).Some? && HexValue(t[1]).Some? && HexDecode(t[2..]) == Some(rest)
    ensures HexDecode(t) == Some([HexValue(t[0]).value * 16 + HexValue(t[1]).value] + rest)
  {
  }

  lemma EncodedPair(t: Text, rest: seq<Byte>)
    requires |t| >= 2 && LowerHex(t[0]) && LowerHex(t[1]) && HexDecode(t[2..]) == Some(rest) && HexEncode(rest) == t[2..]
    ensures HexDecode(t).Some? && |HexDecode(t).value| == 1 + |rest| && HexEncode(HexDecode(t).value) == t
  {
    LowerDigit(t[0]);
    LowerDigit(t[1]);
    DecodedFrom(t, rest);
    EncodedFrom(HexValue(t[0]).value, HexValue(t[1]).value, rest);
    assert t == [t[0], t[1]] + t[2..];
  }

  /** Upper case would be a second spelling; a lower-case digest is the only text of its bytes. */
  lemma {:induction false} LowerHexIsTheOnlySpelling(t: Text)
    requires |t| % 2 == 0 && forall c :: c in t ==> LowerHex(c)
    ensures HexDecode(t).Some? && 2 * |HexDecode(t).value| == |t| && HexEncode(HexDecode(t).value) == t
    decreases |t|
  {
    if t != [] {
      assert t[0] in t && t[1] in t;
      LowerHexIsTheOnlySpelling(t[2..]);
      EncodedPair(t, HexDecode(t[2..]).value);
    }
  }

  // ---- Validation

  predicate Known(operation: Text) { operation == DIAGNOSE || operation in MUTATING }

  function Required(operation: Text): seq<Text> { if operation == DIAGNOSE then [READ] else [MUTATE, READ] }

  predicate Less(a: Text, b: Text) {
    if b == [] then false
    else if a == [] then true
    else a[0] < b[0] || (a[0] == b[0] && Less(a[1..], b[1..]))
  }

  /** Exactly the operation's own list: the ordering the loop asks for is one that list already has. */
  method ValidatePrivileges(operation: Text, privileges: seq<Text>) returns (valid: bool)
    ensures valid <==> Known(operation) && privileges == Required(operation)
  {
    if !Known(operation) {
      return false;
    }
    var required := Required(operation);
    if |privileges| == 0 || |privileges| > MAX_PRIVILEGES {
      return false;
    }
    for index := 1 to |privileges|
      invariant forall i :: 1 <= i < index ==> Less(privileges[i - 1], privileges[i])
    {
      if !Less(privileges[index - 1], privileges[index]) {
        MutateComesFirst();
        assert privileges[index - 1] != MUTATE || privileges[index] != READ;
        assert |privileges| == 2 && index == 1;
        return false;
      }
    }
    if |privileges| != |required| {
      return false;
    }
    for index := 0 to |required|
      invariant privileges[..index] == required[..index]
    {
      if privileges[index] != required[index] {
        return false;
      }
    }
    assert privileges[..|required|] == privileges && required[..|required|] == required;
    valid := true;
  }

  lemma MutateComesFirst()
    ensures Less(MUTATE, READ)
  {
    assert MUTATE[0] == 'm' as int && READ[0] == 'r' as int;
  }

  predicate Valid(e: Envelope) {
    && e.schema == SCHEMA_VERSION
    && CanonicalUUIDv4(e.infrastructure) && CanonicalMachine(e.machine)
    && e.epoch > 0 && e.sequence > 0
    && CanonicalDigest(e.plan) && CanonicalDigest(e.rollback)
    && Known(e.operation) && e.privileges == Required(e.operation)
    && e.issuedAt > 0 && e.issuedAt < e.expiresAt && e.expiresAt - e.issuedAt <= MAX_LIFETIME_SECONDS
    && DecodeRawURL(e.publicKey, PUBLIC_KEY_BYTES).Some?
  }

  /** Named one by one: what a valid envelope is held to beside its closed spellings. */
  lemma ValidIff(e: Envelope)
    requires CanonicalUUIDv4(e.infrastructure) && CanonicalMachine(e.machine) && CanonicalDigest(e.plan) && CanonicalDigest(e.rollback)
    requires DecodeRawURL(e.publicKey, PUBLIC_KEY_BYTES).Some?
    ensures Valid(e) <==>
              && e.schema == 1 && e.epoch >= 1 && e.sequence >= 1
              && e.issuedAt >= 1 && e.issuedAt + 1 <= e.expiresAt && e.expiresAt <= e.issuedAt + 900
              && (if e.operation == DIAGNOSE then e.privileges == [READ] else e.operation in MUTATING && e.privileges == [MUTATE, READ])
  {
  }

  // ---- The transcript

  const SHAPE := [AnOctet, AField, AField, AWide, AWide, AField, AField, AField, SomeFields, AWide, AWide, AField]

  function ItemsOf(e: Envelope, plan: seq<Byte>, rollback: seq<Byte>, key: seq<Byte>): seq<Item>
    requires 0 <= e.schema < 256
  {
    [Octet(e.schema), Field(e.infrastructure), Field(e.machine), Wide(e.epoch), Wide(e.sequence), Field(e.operation),
     Field(plan), Field(rollback), Fields(e.privileges), Wide(e.issuedAt), Wide(e.expiresAt), Field(key)]
  }

  predicate OfShape(items: seq<Item>) {
    && |items| == 12
    && items[0].Octet? && items[1].Field? && items[2].Field? && items[3].Wide? && items[4].Wide? && items[5].Field?
    && items[6].Field? && items[7].Field? && items[8].Fields? && items[9].Wide? && items[10].Wide? && items[11].Field?
    && forall i :: i in {3, 4, 9, 10} ==> items[i].number < 0x1_0000_0000_0000_0000
  }

  /** The fields of a transcript, in the one spelling each of them has in a valid envelope. */
  function EnvelopeOf(items: seq<Item>): Option<Envelope> {
    if !OfShape(items) then None
    else
      Some(Envelope(items[0].octet, items[1].field, items[2].field, items[3].number, items[4].number, items[5].field,
                    HexEncode(items[6].field), HexEncode(items[7].field), items[8].fields, items[9].number, items[10].number,
                    Encode(items[11].field)))
  }

  /** Reads a transcript back into the envelope it was made from. */
  function Parse(b: seq<Byte>): Option<Envelope> {
    if |b| < |TRANSCRIPT_DOMAIN| || b[..|TRANSCRIPT_DOMAIN|] != TRANSCRIPT_DOMAIN then None
    else
      var items := Parsed(LENGTH_BYTES, SHAPE, b[|TRANSCRIPT_DOMAIN|..]);
      if items.None? then None else EnvelopeOf(items.value)
  }

  function DigestOf(t: Text): Option<seq<Byte>> {
    var b := HexDecode(t);
    if b.None? || |b.value| != DIGEST_BYTES then None else b
  }

  /** The exact bytes that are signed, rebuilt from the fields and never from the document. */
  function Transcript(e: Envelope): Option<seq<Byte>> {
    var key, plan, rollback := DecodeRawURL(e.publicKey, PUBLIC_KEY_BYTES), DigestOf(e.plan), DigestOf(e.rollback);
    if key.None? || plan.None? || rollback.None? || e.schema < 0 || e.schema > 255 then None
    else Some(TRANSCRIPT_DOMAIN + AllWritten(LENGTH_BYTES, ItemsOf(e, plan.value, rollback.value, key.value)))
  }

  method SigningTranscript(e: Envelope) returns (r: Option<seq<Byte>>)
    ensures r == Transcript(e)
  {
    var key := DecodeRawURL(e.publicKey, PUBLIC_KEY_BYTES);
    var plan := DigestOf(e.plan);
    var rollback := DigestOf(e.rollback);
    if key.None? || plan.None? || rollback.None? || e.schema < 0 || e.schema > 255 {
      return None;
    }
    var transcript := AppendItems(LENGTH_BYTES, TRANSCRIPT_DOMAIN, ItemsOf(e, plan.value, rollback.value, key.value));
    r := Some(transcript);
  }

  lemma FourAndEightBytes()
    ensures Power(LENGTH_BYTES) == 0x1_0000_0000 && Power(2 * LENGTH_BYTES) == 0x1_0000_0000_0000_0000
  {
    assert Power(2) == 0x1_0000;
    assert Power(4) == 256 * (256 * Power(2));
    assert Power(6) == 256 * (256 * Power(4));
    assert Power(8) == 256 * (256 * Power(6));
  }

  lemma OperationsAreShort(operation: Text)
    requires Known(operation)
    ensures |operation| <= 32
  {
  }

  lemma ItemsAreParsed(items: seq<Item>)
    requires KindsOf(items) == SHAPE && forall i :: i in items ==> Fits(LENGTH_BYTES, i)
    ensures Parse(TRANSCRIPT_DOMAIN + AllWritten(LENGTH_BYTES, items)) == EnvelopeOf(items)
  {
    WrittenIsParsed(LENGTH_BYTES, items);
    var b := TRANSCRIPT_DOMAIN + AllWritten(LENGTH_BYTES, items);
    assert b[..|TRANSCRIPT_DOMAIN|] == TRANSCRIPT_DOMAIN && b[|TRANSCRIPT_DOMAIN|..] == AllWritten(LENGTH_BYTES, items);
  }

  /** The three encoded fields of a valid envelope, as bytes that are spelled no other way. */
  lemma SpelledOnce(e: Envelope) returns (plan: seq<Byte>, rollback: seq<Byte>, key: seq<Byte>)
    requires Valid(e)
    ensures |plan| == |rollback| == DIGEST_BYTES && |key| == PUBLIC_KEY_BYTES
    ensures HexEncode(plan) == e.plan && HexEncode(rollback) == e.rollback && Encode(key) == e.publicKey
    ensures Transcript(e) == Some(TRANSCRIPT_DOMAIN + AllWritten(LENGTH_BYTES, ItemsOf(e, plan, rollback, key)))
  {
    LowerHexIsTheOnlySpelling(e.plan);
    LowerHexIsTheOnlySpelling(e.rollback);
    plan, rollback, key := HexDecode(e.plan).value, HexDecode(e.rollback).value, DecodeRawURL(e.publicKey, PUBLIC_KEY_BYTES).value;
    OneSpellingPerByteString(e.publicKey, PUBLIC_KEY_BYTES, key);
  }

  lemma FieldsInPlace(e: Envelope, plan: seq<Byte>, rollback: seq<Byte>, key: seq<Byte>)
    requires 0 <= e.schema < 256
    requires HexEncode(plan) == e.plan && HexEncode(rollback) == e.rollback && Encode(key) == e.publicKey
    ensures EnvelopeOf(ItemsOf(e, plan, rollback, key)) == Some(e)
  {
  }

  /** The transcript of a valid envelope reads back as that envelope, every field of it. */
  lemma TranscriptIsParsed(e: Envelope)
    requires Valid(e)
    ensures Transcript(e).Some? && Parse(Transcript(e).value) == Some(e)
  {
    var plan, rollback, key := SpelledOnce(e);
    ItemsFit(e, plan, rollback, key);
    FieldsInPlace(e, plan, rollback, key);
    ItemsAreParsed(ItemsOf(e, plan, rollback, key));
  }

  lemma ItemsFit(e: Envelope, plan: seq<Byte>, rollback: seq<Byte>, key: seq<Byte>)
    requires Valid(e) && |plan| == |rollback| == DIGEST_BYTES && |key| == PUBLIC_KEY_BYTES
    ensures forall i :: i in ItemsOf(e, plan, rollback, key) ==> Fits(LENGTH_BYTES, i)
    ensures KindsOf(ItemsOf(e, plan, rollback, key)) == SHAPE
  {
    SizesFit(e);
    ItemsOfTheseSizesFit(e, plan, rollback, key);
    ItemsAreOfTheShape(e, plan, rollback, key);
  }

  lemma SizesFit(e: Envelope)
    requires Valid(e)
    ensures |e.infrastructure| <= 64 && |e.machine| <= 64 && |e.operation| <= 64
    ensures |e.privileges| <= 2 && forall p :: p in e.privileges ==> |p| <= 64
  {
    OperationsAreShort(e.operation);
  }

  lemma ItemsOfTheseSizesFit(e: Envelope, plan: seq<Byte>, rollback: seq<Byte>, key: seq<Byte>)
    requires 0 <= e.schema < 256 && |plan| <= 64 && |rollback| <= 64 && |key| <= 64
    requires |e.infrastructure| <= 64 && |e.machine| <= 64 && |e.operation| <= 64
    requires |e.privileges| <= 2 && forall p :: p in e.privileges ==> |p| <= 64
    ensures forall i :: i in ItemsOf(e, plan, rollback, key) ==> Fits(LENGTH_BYTES, i)
  {
    FourAndEightBytes();
  }

  lemma ItemsAreOfTheShape(e: Envelope, plan: seq<Byte>, rollback: seq<Byte>, key: seq<Byte>)
    requires 0 <= e.schema < 256
    ensures KindsOf(ItemsOf(e, plan, rollback, key)) == SHAPE
  {
  }

  /** Two valid envelopes with one transcript are one envelope: what is signed is every field. */
  lemma TranscriptIsInjective(e: Envelope, f: Envelope)
    requires Valid(e) && Valid(f) && Transcript(e) == Transcript(f)
    ensures e == f
  {
    TranscriptIsParsed(e);
    TranscriptIsParsed(f);
  }

  // ---- Acceptance, up to the spending of the sequence

  datatype Anchor = Anchor(infrastructure: Text, machine: Text, epoch: Uint64, publicKey: Text)

  datatype Signed = Signed(envelope: Envelope, signature: Text)

  /** The operations that may run at all: those that only read, or those that change this machine. */
  datatype Subject = ReadOnlyDiagnostic | AppliedMutation

  predicate Binds(anchor: Anchor, e: Envelope) {
    && e.infrastructure == anchor.infrastructure && e.machine == anchor.machine
    && e.epoch == anchor.epoch && e.publicKey == anchor.publicKey
  }

  predicate IsMutating(e: Envelope) { MUTATE in e.privileges }

  predicate Reaches(subject: Subject, e: Envelope) {
    match subject
    case ReadOnlyDiagnostic => !IsMutating(e) && e.operation == DIAGNOSE
    case AppliedMutation => e.operation in MUTATING && IsMutating(e)
  }

  predicate InItsWindow(e: Envelope, now: Uint64) { e.issuedAt <= now < e.expiresAt }

  /** Verified against the key this machine anchors, never against the one the document names. */
  predicate SignedBy(verifies: (seq<Byte>, seq<Byte>, seq<Byte>) -> bool, signed: Signed, key: seq<Byte>) {
    var transcript, signature := Transcript(signed.envelope), DecodeRawURL(signed.signature, SIGNATURE_BYTES);
    && |key| == PUBLIC_KEY_BYTES && DecodeRawURL(signed.envelope.publicKey, PUBLIC_KEY_BYTES) == Some(key)
    && transcript.Some? && signature.Some? && verifies(key, transcript.value, signature.value)
  }

  lemma TheDiagnosticIsNoMutation()
    ensures DIAGNOSE !in MUTATING && READ != MUTATE
  {
    assert |DIAGNOSE| == 27 && forall i :: 0 <= i < |MUTATING| ==> |MUTATING[i]| < 27;
    assert READ[0] == 'r' as int && MUTATE[0] == 'm' as int;
  }

  /** Every valid envelope reaches one subject and no other: neither is a relaxation of the other. */
  lemma ExactlyOneSubject(e: Envelope)
    requires Valid(e)
    ensures Reaches(ReadOnlyDiagnostic, e) != Reaches(AppliedMutation, e)
    ensures Reaches(ReadOnlyDiagnostic, e) <==> !IsMutating(e)
  {
    TheDiagnosticIsNoMutation();
  }
}
