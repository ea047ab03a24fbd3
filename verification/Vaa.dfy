/** Wire formats of signed VAAs, transceiver messages and manager messages, and their parsers. */
module Vaa {
  import opened Prelude
  import opened Bytes

  datatype ParseError = TooShort | TruncatedSignature | TruncatedHeader | PrefixMismatch | TruncatedPayload

  // ------------------------------------------------------------------------- VAA

  datatype ParsedVaa = ParsedVaa(version: byte, guardianSet: nat, signatures: seq<bytes>, timestamp: nat, nonce: nat,
                                 emitterChain: u16, emitterAddress: bytes, sequence: u64, consistency: byte,
                                 payload: bytes)

  const SIGNATURE_LEN := 66
  const BODY_HEADER_LEN := 51

  predicate VaaOk(v: ParsedVaa) {
    && Fits(v.guardianSet, 4) && Fits(v.timestamp, 4) && Fits(v.nonce, 4)
    && |v.signatures| < 256 && |v.emitterAddress| == 32
    && (forall i :: 0 <= i < |v.signatures| ==> |v.signatures[i]| == SIGNATURE_LEN)
  }

  function Flatten(parts: seq<bytes>): bytes {
    if parts == [] then [] else Flatten(parts[..|parts| - 1]) + parts[|parts| - 1]
  }

  function VaaBody(v: ParsedVaa): bytes {
    Be(v.timestamp, 4) + (Be(v.nonce, 4) + (Be(v.emitterChain, 2) + (v.emitterAddress +
    (Be(v.sequence, 8) + ([v.consistency] + v.payload)))))
  }

  function SerializeVaa(v: ParsedVaa): bytes
    requires |v.signatures| < 256
  {
    [v.version] + (Be(v.guardianSet, 4) + ([|v.signatures|] + (Flatten(v.signatures) + VaaBody(v))))
  }

  lemma {:induction false} FlattenLength(parts: seq<bytes>)
    requires forall i :: 0 <= i < |parts| ==> |parts[i]| == SIGNATURE_LEN
    ensures |Flatten(parts)| == SIGNATURE_LEN * |parts|
  {
    if parts != [] {
      FlattenLength(parts[..|parts| - 1]);
    }
  }

  lemma {:induction false} FlattenInjective(a: seq<bytes>, b: seq<bytes>)
    requires |a| == |b| && Flatten(a) == Flatten(b)
    requires forall i :: 0 <= i < |a| ==> |a[i]| == SIGNATURE_LEN && |b[i]| == SIGNATURE_LEN
    ensures a == b
  {
    if a != [] {
      var n := |a| - 1;
      FlattenLength(a[..n]);
      FlattenLength(b[..n]);
      SplitEqual(Flatten(a[..n]), a[n], Flatten(b[..n]), b[n]);
      FlattenInjective(a[..n], b[..n]);
      assert a == a[..n] + [a[n]] && b == b[..n] + [b[n]];
    }
  }

  lemma {:induction false} BeInjective(a: nat, b: nat, width: nat)
    requires Fits(a, width) && Fits(b, width) && Be(a, width) == Be(b, width)
    ensures a == b
  {
    BeRoundTrip(a, width);
    BeRoundTrip(b, width);
  }

  lemma {:induction false} BodyInjective(a: ParsedVaa, b: ParsedVaa)
    requires VaaOk(a) && VaaOk(b) && VaaBody(a) == VaaBody(b)
    ensures a == b.(version := a.version, guardianSet := a.guardianSet, signatures := a.signatures)
  {
    SplitEqual(Be(a.timestamp, 4), VaaBody(a)[4..], Be(b.timestamp, 4), VaaBody(b)[4..]);
    assert VaaBody(a)[4..] == VaaBody(b)[4..];
    var a1 := Be(a.emitterChain, 2) + (a.emitterAddress + (Be(a.sequence, 8) + ([a.consistency] + a.payload)));
    var b1 := Be(b.emitterChain, 2) + (b.emitterAddress + (Be(b.sequence, 8) + ([b.consistency] + b.payload)));
    SplitEqual(Be(a.nonce, 4), a1, Be(b.nonce, 4), b1);
    var a2 := a.emitterAddress + (Be(a.sequence, 8) + ([a.consistency] + a.payload));
    var b2 := b.emitterAddress + (Be(b.sequence, 8) + ([b.consistency] + b.payload));
    SplitEqual(Be(a.emitterChain, 2), a2, Be(b.emitterChain, 2), b2);
    SplitEqual(a.emitterAddress, a2[32..], b.emitterAddress, b2[32..]);
    SplitEqual(Be(a.sequence, 8), [a.consistency] + a.payload, Be(b.sequence, 8), [b.consistency] + b.payload);
    SplitEqual([a.consistency], a.payload, [b.consistency], b.payload);
    TwoFit(a.emitterChain); TwoFit(b.emitterChain);
    EightFit(a.sequence); EightFit(b.sequence);
    BeInjective(a.timestamp, b.timestamp, 4);
    BeInjective(a.nonce, b.nonce, 4);
    BeInjective(a.emitterChain, b.emitterChain, 2);
    BeInjective(a.sequence, b.sequence, 8);
  }

  /** No two VAAs share their bytes. */
  lemma {:induction false} VaaInjective(a: ParsedVaa, b: ParsedVaa)
    requires VaaOk(a) && VaaOk(b) && SerializeVaa(a) == SerializeVaa(b)
    ensures a == b
  {
    var a1 := Be(a.guardianSet, 4) + ([|a.signatures|] + (Flatten(a.signatures) + VaaBody(a)));
    var b1 := Be(b.guardianSet, 4) + ([|b.signatures|] + (Flatten(b.signatures) + VaaBody(b)));
    SplitEqual([a.version], a1, [b.version], b1);
    SplitEqual(Be(a.guardianSet, 4), a1[4..], Be(b.guardianSet, 4), b1[4..]);
    SplitEqual([|a.signatures|], Flatten(a.signatures) + VaaBody(a), [|b.signatures|], Flatten(b.signatures) + VaaBody(b));
    BeInjective(a.guardianSet, b.guardianSet, 4);
    FlattenLength(a.signatures);
    FlattenLength(b.signatures);
    SplitEqual(Flatten(a.signatures), VaaBody(a), Flatten(b.signatures), VaaBody(b));
    FlattenInjective(a.signatures, b.signatures);
    BodyInjective(a, b);
  }

  /** The guardian signatures behind the six header bytes. */
  method ParseSignatures(data: bytes, count: byte) returns (r: Result<seq<bytes>, ParseError>, o: nat)
    requires |data| >= 6
    ensures r.Ok? <==> 6 + SIGNATURE_LEN * count <= |data|
    ensures r.Ok? ==> o == 6 + SIGNATURE_LEN * count && |r.value| == count && Flatten(r.value) == data[6..o]
    ensures r.Ok? ==> forall i :: 0 <= i < count ==> |r.value[i]| == SIGNATURE_LEN
    ensures r.Err? ==> r.error == TruncatedSignature
  {
    o := 6;
    var signatures: seq<bytes> := [];
    for i := 0 to count
      invariant o == 6 + SIGNATURE_LEN * i <= |data| && |signatures| == i
      invariant forall j :: 0 <= j < i ==> |signatures[j]| == SIGNATURE_LEN
      invariant data[6..o] == Flatten(signatures)
    {
      if o + SIGNATURE_LEN > |data| {
        return Err(TruncatedSignature), o;
      }
      ghost var before := signatures;
      signatures := signatures + [data[o..o + SIGNATURE_LEN]];
      assert signatures[..i] == before;
      assert data[6..o + SIGNATURE_LEN] == data[6..o] + data[o..o + SIGNATURE_LEN];
      o := o + SIGNATURE_LEN;
    }
    r := Ok(signatures);
  }

  /** The body header and payload from a cursor on. */
  method ParseBody(data: bytes, start: nat, version: byte, guardianSet: nat, signatures: seq<bytes>) returns (v: ParsedVaa)
    requires start + BODY_HEADER_LEN <= |data|
    ensures v.version == version && v.guardianSet == guardianSet && v.signatures == signatures
    ensures VaaBody(v) == data[start..]
    ensures Fits(v.timestamp, 4) && Fits(v.nonce, 4) && |v.emitterAddress| == 32
  {
    var o := start;
    FromBeFits(data[o..o + 4]);
    var timestamp := FromBe(data[o..o + 4]);
    o := o + 4;
    FromBeFits(data[o..o + 4]);
    var nonce := FromBe(data[o..o + 4]);
    o := o + 4;
    FromBeFits(data[o..o + 2]);
    Widths();
    var emitterChain: u16 := FromBe(data[o..o + 2]);
    o := o + 2;
    var emitterAddress := data[o..o + 32];
    o := o + 32;
    FromBeFits(data[o..o + 8]);
    var sequence: u64 := FromBe(data[o..o + 8]);
    o := o + 8;
    var consistency := data[o];
    o := o + 1;
    v := ParsedVaa(version, guardianSet, signatures, timestamp, nonce, emitterChain, emitterAddress, sequence,
                   consistency, data[o..]);
    BodyReassembles(data, start, v);
  }

  /**
   * Accepts exactly the serialized VAAs, and returns the one that was serialized; no input makes it
   * read out of range.
   */
  method ParseVaa(data: bytes) returns (r: Result<ParsedVaa, ParseError>)
    ensures r.Ok? ==> VaaOk(r.value) && SerializeVaa(r.value) == data
    ensures r.Err? ==> forall v :: VaaOk(v) ==> SerializeVaa(v) != data
  {
    if |data| < 6 {
      return Err(TooShort);
    }
    var o := 0;
    var version := data[o];
    o := o + 1;
    var guardianSet := FromBe(data[o..o + 4]);
    FromBeFits(data[o..o + 4]);
    o := o + 4;
    var count := data[o];
    var signatures;
    signatures, o := ParseSignatures(data, count);
    if signatures.Err? {
      TooShortForSignatures(data, count);
      return Err(TruncatedSignature);
    }
    if o + BODY_HEADER_LEN > |data| {
      TooShortForSignatures(data, count);
      return Err(TruncatedHeader);
    }
    var v := ParseBody(data, o, version, guardianSet, signatures.value);
    HeadReassembles(data, o, v);
    r := Ok(v);
  }

  lemma {:induction false} TooShortForSignatures(data: bytes, count: nat)
    requires |data| >= 6 && data[5] == count && |data| < 6 + SIGNATURE_LEN * count + BODY_HEADER_LEN
    ensures forall v :: VaaOk(v) ==> SerializeVaa(v) != data
  {
    forall v | VaaOk(v)
      ensures SerializeVaa(v) != data
    {
      FlattenLength(v.signatures);
      assert SerializeVaa(v)[5] == |v.signatures|;
    }
  }

  lemma {:induction false} BodyReassembles(data: bytes, h: nat, v: ParsedVaa)
    requires h + BODY_HEADER_LEN <= |data|
    requires Be(v.timestamp, 4) == data[h..h + 4] && Be(v.nonce, 4) == data[h + 4..h + 8]
    requires Be(v.emitterChain, 2) == data[h + 8..h + 10] && v.emitterAddress == data[h + 10..h + 42]
    requires Be(v.sequence, 8) == data[h + 42..h + 50] && v.consistency == data[h + 50] && v.payload == data[h + 51..]
    ensures VaaBody(v) == data[h..]
  {
    assert data[h + 50..] == [data[h + 50]] + data[h + 51..];
    assert data[h + 42..] == data[h + 42..h + 50] + data[h + 50..];
    assert data[h + 10..] == data[h + 10..h + 42] + data[h + 42..];
    assert data[h + 8..] == data[h + 8..h + 10] + data[h + 10..];
    assert data[h + 4..] == data[h + 4..h + 8] + data[h + 8..];
    assert data[h..] == data[h..h + 4] + data[h + 4..];
  }

  lemma {:induction false} HeadReassembles(data: bytes, h: nat, v: ParsedVaa)
    requires 6 <= h <= |data| && |v.signatures| < 256
    requires v.version == data[0] && Be(v.guardianSet, 4) == data[1..5] && |v.signatures| == data[5]
    requires Flatten(v.signatures) == data[6..h] && VaaBody(v) == data[h..]
    ensures SerializeVaa(v) == data
  {
    assert data[6..] == data[6..h] + data[h..];
    assert data[5..] == [data[5]] + data[6..];
    assert data[1..] == data[1..5] + data[5..];
    assert data == [data[0]] + data[1..];
  }

  // --------------------------------------------------------- transceiver message

  datatype Transceiver = Transceiver(sourceManager: bytes, recipientManager: bytes,
                                     managerPayload: bytes, transceiverPayload: bytes)

  const TRANSCEIVER_PREFIX: bytes := [0x99, 0x45, 0xFF, 0x10]

  predicate TransceiverOk(t: Transceiver) {
    && |t.sourceManager| == 32 && |t.recipientManager| == 32
    && |t.managerPayload| <= U16_MAX && |t.transceiverPayload| <= U16_MAX
  }

  function TransceiverTail(t: Transceiver, rest: bytes): bytes {
    Be(|t.transceiverPayload|, 2) + (t.transceiverPayload + rest)
  }

  /** A transceiver message followed by bytes the parser ignores. */
  function TransceiverWire(t: Transceiver, rest: bytes): bytes {
    TRANSCEIVER_PREFIX + (t.sourceManager + (t.recipientManager + (Be(|t.managerPayload|, 2) + (t.managerPayload +
    TransceiverTail(t, rest)))))
  }

  predicate Carries(payload: bytes, t: Transceiver, rest: bytes) {
    TransceiverOk(t) && payload == TransceiverWire(t, rest)
  }

  /** A payload carries at most one message. */
  lemma {:induction false} TransceiverUnique(payload: bytes, a: Transceiver, restA: bytes, b: Transceiver, restB: bytes)
    requires Carries(payload, a, restA) && Carries(payload, b, restB)
    ensures a == b && restA == restB
  {
    var a4, b4 := a.transceiverPayload + restA, b.transceiverPayload + restB;
    var a3 := a.managerPayload + (Be(|a.transceiverPayload|, 2) + a4);
    var b3 := b.managerPayload + (Be(|b.transceiverPayload|, 2) + b4);
    var a2 := a.recipientManager + (Be(|a.managerPayload|, 2) + a3);
    var b2 := b.recipientManager + (Be(|b.managerPayload|, 2) + b3);
    SplitEqual(TRANSCEIVER_PREFIX, a.sourceManager + a2, TRANSCEIVER_PREFIX, b.sourceManager + b2);
    SplitEqual(a.sourceManager, a2, b.sourceManager, b2);
    SplitEqual(a.recipientManager, Be(|a.managerPayload|, 2) + a3, b.recipientManager, Be(|b.managerPayload|, 2) + b3);
    SplitEqual(Be(|a.managerPayload|, 2), a3, Be(|b.managerPayload|, 2), b3);
    TwoFit(|a.managerPayload|); TwoFit(|b.managerPayload|);
    BeInjective(|a.managerPayload|, |b.managerPayload|, 2);
    SplitEqual(a.managerPayload, Be(|a.transceiverPayload|, 2) + a4, b.managerPayload, Be(|b.transceiverPayload|, 2) + b4);
    SplitEqual(Be(|a.transceiverPayload|, 2), a4, Be(|b.transceiverPayload|, 2), b4);
    TwoFit(|a.transceiverPayload|); TwoFit(|b.transceiverPayload|);
    BeInjective(|a.transceiverPayload|, |b.transceiverPayload|, 2);
    SplitEqual(a.transceiverPayload, restA, b.transceiverPayload, restB);
  }

  /** Accepts exactly the payloads that start with a transceiver message, and returns that message. */
  method ParseTransceiver(payload: bytes) returns (r: Result<Transceiver, ParseError>, ghost rest: bytes)
    ensures r.Ok? ==> Carries(payload, r.value, rest)
    ensures r.Err? ==> forall t, x :: !Carries(payload, t, x)
  {
    rest := [];
    if |payload| < 4 + 32 + 32 + 2 {
      NothingCarried(payload);
      return Err(TooShort), rest;
    }
    if payload[..4] != TRANSCEIVER_PREFIX {
      NothingCarried(payload);
      return Err(PrefixMismatch), rest;
    }
    var o := 4;
    var source := payload[o..o + 32];
    o := o + 32;
    var recipient := payload[o..o + 32];
    o := o + 32;
    var managerLen := FromBe(payload[o..o + 2]);
    o := o + 2;
    if o + managerLen + 2 > |payload| {
      NothingCarried(payload);
      return Err(TruncatedPayload), rest;
    }
    var manager := payload[o..o + managerLen];
    o := o + managerLen;
    var transceiverLen := FromBe(payload[o..o + 2]);
    o := o + 2;
    if o + transceiverLen > |payload| {
      NothingCarried(payload);
      return Err(TruncatedPayload), rest;
    }
    r := Ok(Transceiver(source, recipient, manager, payload[o..o + transceiverLen]));
    rest := payload[o + transceiverLen..];
    WellFormedCarries(payload, r.value, o, rest);
  }

  lemma {:induction false} WellFormedCarries(payload: bytes, t: Transceiver, o: nat, rest: bytes)
    requires 72 <= o && o + |t.transceiverPayload| <= |payload| && payload[..4] == TRANSCEIVER_PREFIX
    requires t.sourceManager == payload[4..36] && t.recipientManager == payload[36..68]
    requires |t.managerPayload| == FromBe(payload[68..70]) && t.managerPayload == payload[70..o - 2]
    requires |t.transceiverPayload| == FromBe(payload[o - 2..o])
    requires t.transceiverPayload == payload[o..o + |t.transceiverPayload|]
    requires rest == payload[o + |t.transceiverPayload|..]
    ensures Carries(payload, t, rest)
  {
    FromBeFits(payload[68..70]);
    FromBeFits(payload[o - 2..o]);
    Widths();
    TailReassembles(payload, t, o, rest);
    TransceiverReassembles(payload, t, o, rest);
  }

  /** The lengths a payload declares, read where the parser reads them. */
  lemma {:induction false} ManagerLength(payload: bytes, t: Transceiver, x: bytes)
    requires Carries(payload, t, x)
    ensures |payload| >= 72 + |t.managerPayload| + |t.transceiverPayload| && payload[..4] == TRANSCEIVER_PREFIX
    ensures FromBe(payload[68..70]) == |t.managerPayload|
    ensures FromBe(payload[70 + |t.managerPayload|..72 + |t.managerPayload|]) == |t.transceiverPayload|
  {
    var n, k := |t.managerPayload|, |t.transceiverPayload|;
    var t4 := t.transceiverPayload + x;
    var t3 := t.managerPayload + (Be(k, 2) + t4);
    var t2 := t.recipientManager + (Be(n, 2) + t3);
    assert payload[0..] == payload;
    Field(payload, 0, TRANSCEIVER_PREFIX, t.sourceManager + t2);
    Field(payload, 4, t.sourceManager, t2);
    Field(payload, 36, t.recipientManager, Be(n, 2) + t3);
    Field(payload, 68, Be(n, 2), t3);
    Field(payload, 70, t.managerPayload, Be(k, 2) + t4);
    Field(payload, 70 + n, Be(k, 2), t4);
    TwoFit(n);
    TwoFit(k);
    BeRoundTrip(n, 2);
    BeRoundTrip(k, 2);
  }

  predicate Malformed(payload: bytes) {
    |payload| < 70 || payload[..4] != TRANSCEIVER_PREFIX ||
    var n := FromBe(payload[68..70]);
    72 + n > |payload| || 72 + n + FromBe(payload[70 + n..72 + n]) > |payload|
  }

  lemma {:induction false} NothingCarried(payload: bytes)
    requires Malformed(payload)
    ensures forall t, x :: !Carries(payload, t, x)
  {
    forall t, x
      ensures !Carries(payload, t, x)
    {
      if Carries(payload, t, x) {
        ManagerLength(payload, t, x);
      }
    }
  }

  lemma {:induction false} TailReassembles(payload: bytes, t: Transceiver, o: nat, rest: bytes)
    requires 2 <= o && o + |t.transceiverPayload| <= |payload|
    requires Be(|t.transceiverPayload|, 2) == payload[o - 2..o]
    requires t.transceiverPayload == payload[o..o + |t.transceiverPayload|]
    requires rest == payload[o + |t.transceiverPayload|..]
    ensures payload[o - 2..|payload|] == TransceiverTail(t, rest)
  {
    var n := |payload|;
    assert payload[o + |t.transceiverPayload|..n] == rest;
    Join(payload, o, o + |t.transceiverPayload|, n);
    Join(payload, o - 2, o, n);
  }

  lemma {:induction false} TransceiverReassembles(payload: bytes, t: Transceiver, o: nat, rest: bytes)
    requires 72 <= o <= |payload| && payload[..4] == TRANSCEIVER_PREFIX
    requires t.sourceManager == payload[4..36] && t.recipientManager == payload[36..68]
    requires Be(|t.managerPayload|, 2) == payload[68..70] && t.managerPayload == payload[70..o - 2]
    requires payload[o - 2..|payload|] == TransceiverTail(t, rest)
    ensures payload == TransceiverWire(t, rest)
  {
    var n := |payload|;
    assert payload[0..n] == payload && payload[0..4] == payload[..4];
    Join(payload, 70, o - 2, n);
    Join(payload, 68, 70, n);
    Join(payload, 36, 68, n);
    Join(payload, 4, 36, n);
    Join(payload, 0, 4, n);
  }

  // ------------------------------------------------------------- manager message

  datatype ManagerMessage = ManagerMessage(id: bytes, sender: bytes, amount: u64, decimals: byte,
                                           sourceToken: bytes, to: bytes, toChain: u16)

  const NTT_PREFIX: bytes := [0x99, 0x4E, 0x54, 0x54]
  const NTT_WIRE_LEN := 79
  const CANONICAL_LEN := 145

  predicate MessageOk(m: ManagerMessage) {
    |m.id| == 32 && |m.sender| == 32 && |m.sourceToken| == 32 && |m.to| == 32
  }

  function NttWire(m: ManagerMessage): bytes {
    NTT_PREFIX + ([m.decimals] + (Be(m.amount, 8) + (m.sourceToken + (m.to + Be(m.toChain, 2)))))
  }

  /** A manager message with a declared inner length and whatever follows the transfer body. */
  function ManagerWire(m: ManagerMessage, innerLen: nat, rest: bytes): bytes {
    m.id + (m.sender + (Be(innerLen, 2) + (NttWire(m) + rest)))
  }

  function CanonicalWire(m: ManagerMessage): bytes { ManagerWire(m, NTT_WIRE_LEN, []) }

  predicate IsWireOf(wire: bytes, m: ManagerMessage, innerLen: nat, rest: bytes) {
    && MessageOk(m) && NTT_WIRE_LEN <= innerLen <= U16_MAX && innerLen <= NTT_WIRE_LEN + |rest|
    && wire == ManagerWire(m, innerLen, rest)
  }

  lemma {:induction false} NttWireInjective(a: ManagerMessage, b: ManagerMessage)
    requires MessageOk(a) && MessageOk(b) && NttWire(a) == NttWire(b)
    ensures a == b.(id := a.id, sender := a.sender)
  {
    var a1 := [a.decimals] + (Be(a.amount, 8) + (a.sourceToken + (a.to + Be(a.toChain, 2))));
    var b1 := [b.decimals] + (Be(b.amount, 8) + (b.sourceToken + (b.to + Be(b.toChain, 2))));
    SplitEqual(NTT_PREFIX, a1, NTT_PREFIX, b1);
    SplitEqual([a.decimals], a1[1..], [b.decimals], b1[1..]);
    var a2, b2 := a.sourceToken + (a.to + Be(a.toChain, 2)), b.sourceToken + (b.to + Be(b.toChain, 2));
    SplitEqual(Be(a.amount, 8), a2, Be(b.amount, 8), b2);
    SplitEqual(a.sourceToken, a2[32..], b.sourceToken, b2[32..]);
    SplitEqual(a.to, Be(a.toChain, 2), b.to, Be(b.toChain, 2));
    EightFit(a.amount); EightFit(b.amount);
    TwoFit(a.toChain); TwoFit(b.toChain);
    BeInjective(a.amount, b.amount, 8);
    BeInjective(a.toChain, b.toChain, 2);
  }

  /** A wire has at most one reading: message, declared length and trailing bytes. */
  lemma {:induction false} WireUnique(wire: bytes, a: ManagerMessage, la: nat, ra: bytes, b: ManagerMessage, lb: nat, rb: bytes)
    requires IsWireOf(wire, a, la, ra) && IsWireOf(wire, b, lb, rb)
    ensures a == b && la == lb && ra == rb
  {
    var a1, b1 := Be(la, 2) + (NttWire(a) + ra), Be(lb, 2) + (NttWire(b) + rb);
    SplitEqual(a.id, a.sender + a1, b.id, b.sender + b1);
    SplitEqual(a.sender, a1, b.sender, b1);
    SplitEqual(Be(la, 2), NttWire(a) + ra, Be(lb, 2), NttWire(b) + rb);
    SplitEqual(NttWire(a), ra, NttWire(b), rb);
    NttWireInjective(a, b);
    TwoFit(la); TwoFit(lb);
    BeInjective(la, lb, 2);
  }

  /** Accepts exactly the wires of manager messages, and returns the message. */
  method ParseManagerMessage(wire: bytes)
    returns (r: Result<ManagerMessage, ParseError>, ghost innerLen: nat, ghost rest: bytes)
    ensures r.Ok? ==> IsWireOf(wire, r.value, innerLen, rest)
    ensures r.Err? ==> forall m, n, x :: !IsWireOf(wire, m, n, x)
  {
    innerLen, rest := 0, [];
    if |wire| < 32 + 32 + 2 {
      return Err(TooShort), 0, [];
    }
    var o := 0;
    var id := wire[o..o + 32];
    o := o + 32;
    var sender := wire[o..o + 32];
    o := o + 32;
    var len := FromBe(wire[o..o + 2]);
    o := o + 2;
    if o + len > |wire| || len < NTT_WIRE_LEN || wire[66..70] != NTT_PREFIX {
      NoWire(wire);
      if o + len > |wire| {
        return Err(TruncatedPayload), 0, [];
      } else if len < NTT_WIRE_LEN {
        return Err(TooShort), 0, [];
      } else {
        return Err(PrefixMismatch), 0, [];
      }
    }
    var inner := wire[o..o + len];
    InnerFields(wire, len);
    var p := 4;
    var decimals := inner[p];
    p := p + 1;
    var amount: u64 := FromBe(inner[p..p + 8]);
    p := p + 8;
    var sourceToken := inner[p..p + 32];
    p := p + 32;
    var to := inner[p..p + 32];
    p := p + 32;
    var toChain: u16 := FromBe(inner[p..p + 2]);
    r := Ok(ManagerMessage(id, sender, amount, decimals, sourceToken, to, toChain));
    innerLen, rest := len, wire[145..];
    FieldsReassemble(wire, r.value, len);
  }

  lemma {:induction false} NoWire(wire: bytes)
    requires |wire| >= 66
    requires var len := FromBe(wire[64..66]);
             66 + len > |wire| || len < NTT_WIRE_LEN || wire[66..70] != NTT_PREFIX
    ensures forall m, n, x :: !IsWireOf(wire, m, n, x)
  {
    forall m, n, x
      ensures !IsWireOf(wire, m, n, x)
    {
      if IsWireOf(wire, m, n, x) {
        InnerLength(wire, m, n, x);
      }
    }
  }

  /** Positions inside the inner message, as positions in the wire. */
  lemma {:induction false} InnerFields(wire: bytes, len: nat)
    requires NTT_WIRE_LEN <= len && 66 + len <= |wire|
    ensures var inner := wire[66..66 + len];
            && inner[4] == wire[70] && inner[5..13] == wire[71..79] && inner[13..45] == wire[79..111]
            && inner[45..77] == wire[111..143] && inner[77..79] == wire[143..145]
    ensures FromBe(wire[71..79]) <= U64_MAX && FromBe(wire[143..145]) <= U16_MAX
  {
    SubSlice(wire, 66, len, 5, 13);
    SubSlice(wire, 66, len, 13, 45);
    SubSlice(wire, 66, len, 45, 77);
    SubSlice(wire, 66, len, 77, 79);
    FromBeFits(wire[71..79]);
    FromBeFits(wire[143..145]);
    Widths();
  }

  lemma {:induction false} FieldsReassemble(wire: bytes, m: ManagerMessage, len: nat)
    requires NTT_WIRE_LEN <= len && 66 + len <= |wire| && wire[66..70] == NTT_PREFIX && len == FromBe(wire[64..66])
    requires m.id == wire[0..32] && m.sender == wire[32..64] && m.decimals == wire[70]
    requires m.amount == FromBe(wire[71..79]) && m.sourceToken == wire[79..111]
    requires m.to == wire[111..143] && m.toChain == FromBe(wire[143..145])
    ensures IsWireOf(wire, m, len, wire[145..])
  {
    FromBeFits(wire[64..66]);
    FromBeFits(wire[71..79]);
    FromBeFits(wire[143..145]);
    Widths();
    WireReassembles(wire, m, len);
  }

  lemma {:induction false} InnerLength(wire: bytes, m: ManagerMessage, n: nat, x: bytes)
    requires IsWireOf(wire, m, n, x)
    ensures |wire| == CANONICAL_LEN + |x| && FromBe(wire[64..66]) == n && wire[66..70] == NTT_PREFIX
  {
    TwoFit(n);
    BeRoundTrip(n, 2);
    assert wire[64..66] == Be(n, 2);
    assert wire[66..] == NttWire(m) + x;
    assert wire[66..70] == wire[66..][..4];
  }

  lemma {:induction false} NttReassembles(wire: bytes, m: ManagerMessage)
    requires |wire| >= CANONICAL_LEN && wire[66..70] == NTT_PREFIX && m.decimals == wire[70]
    requires Be(m.amount, 8) == wire[71..79] && m.sourceToken == wire[79..111]
    requires m.to == wire[111..143] && Be(m.toChain, 2) == wire[143..145]
    ensures NttWire(m) == wire[66..145]
  {
    Join(wire, 111, 143, 145);
    Join(wire, 79, 111, 145);
    Join(wire, 71, 79, 145);
    Join(wire, 70, 71, 145);
    Join(wire, 66, 70, 145);
    assert wire[70..71] == [wire[70]];
  }

  lemma {:induction false} WireReassembles(wire: bytes, m: ManagerMessage, len: nat)
    requires |wire| >= CANONICAL_LEN && wire[66..70] == NTT_PREFIX && m.decimals == wire[70]
    requires Be(m.amount, 8) == wire[71..79] && m.sourceToken == wire[79..111]
    requires m.to == wire[111..143] && Be(m.toChain, 2) == wire[143..145]
    requires m.id == wire[0..32] && m.sender == wire[32..64] && Be(len, 2) == wire[64..66]
    ensures wire == ManagerWire(m, len, wire[145..])
  {
    NttReassembles(wire, m);
    var n := |wire|;
    assert wire[0..n] == wire && wire[145..n] == wire[145..];
    Join(wire, 66, 145, n);
    Join(wire, 64, 66, n);
    Join(wire, 32, 64, n);
    Join(wire, 0, 32, n);
  }
}
