/**
 * The bytes hashed into an inbox-item address: rebuilt on chain from a little-endian account, and
 * taken off the big-endian wire by the client. Digests themselves are not modelled.
 */
module Preimage {
  import opened Prelude
  import opened Bytes
  import opened Vaa

  /** What both sides must hash: origin chain, then the canonical manager message. */
  function InboxPreimage(fromChain: u16, m: ManagerMessage): bytes { Be(fromChain, 2) + CanonicalWire(m) }

  // ----------------------------------------------------------- the account layout

  const VTM_LEN := 213

  datatype Vtm = Vtm(discriminator: bytes, fromChain: u16, sourceManager: bytes, recipientManager: bytes,
                     message: ManagerMessage)

  predicate VtmOk(v: Vtm) {
    && |v.discriminator| == 8 && |v.sourceManager| == 32 && |v.recipientManager| == 32 && MessageOk(v.message)
  }

  /** Borsh layout of a validated transceiver message account, with trailing account space. */
  function VtmBytes(v: Vtm, rest: bytes): bytes {
    var m := v.message;
    v.discriminator + (Le(v.fromChain, 2) + (v.sourceManager + (v.recipientManager + (m.id + (m.sender +
    (Le(m.amount, 8) + ([m.decimals] + (m.sourceToken + (Le(m.toChain, 2) + (m.to + rest))))))))))
  }

  function ChainAt(vtm: bytes): u16
    requires |vtm| >= VTM_LEN
  {
    FromLeFits(vtm[8..10]);
    Widths();
    FromLe(vtm[8..10])
  }

  /** The message fields read at their fixed offsets. */
  function MessageAt(vtm: bytes): ManagerMessage
    requires |vtm| >= VTM_LEN
  {
    FromLeFits(vtm[138..146]);
    FromLeFits(vtm[179..181]);
    Widths();
    ManagerMessage(vtm[74..106], vtm[106..138], FromLe(vtm[138..146]), vtm[146], vtm[147..179],
                   vtm[181..213], FromLe(vtm[179..181]))
  }

  /** The offsets read back exactly what the layout wrote. */
  lemma {:induction false} LayoutRoundTrip(v: Vtm, rest: bytes)
    requires VtmOk(v)
    ensures |VtmBytes(v, rest)| == VTM_LEN + |rest|
    ensures ChainAt(VtmBytes(v, rest)) == v.fromChain && MessageAt(VtmBytes(v, rest)) == v.message
  {
    var m, b := v.message, VtmBytes(v, rest);
    var b9 := Le(m.toChain, 2) + (m.to + rest);
    var b7 := Le(m.amount, 8) + ([m.decimals] + (m.sourceToken + b9));
    var b4 := m.id + (m.sender + b7);
    var b1 := Le(v.fromChain, 2) + (v.sourceManager + (v.recipientManager + b4));
    assert b[0..] == b;
    Field(b, 0, v.discriminator, b1);
    Field(b, 8, Le(v.fromChain, 2), v.sourceManager + (v.recipientManager + b4));
    Field(b, 10, v.sourceManager, v.recipientManager + b4);
    Field(b, 42, v.recipientManager, b4);
    MessageLayout(b, m, rest);
    TwoFit(v.fromChain);
    LeRoundTrip(v.fromChain, 2);
  }

  lemma {:induction false} MessageLayout(b: bytes, m: ManagerMessage, rest: bytes)
    requires MessageOk(m) && |b| >= 74
    requires b[74..] == m.id + (m.sender + (Le(m.amount, 8) + ([m.decimals] + (m.sourceToken +
                        (Le(m.toChain, 2) + (m.to + rest))))))
    ensures |b| == VTM_LEN + |rest| && MessageAt(b) == m
  {
    var b9 := Le(m.toChain, 2) + (m.to + rest);
    var b8 := [m.decimals] + (m.sourceToken + b9);
    Field(b, 74, m.id, m.sender + (Le(m.amount, 8) + b8));
    Field(b, 106, m.sender, Le(m.amount, 8) + b8);
    Field(b, 138, Le(m.amount, 8), b8);
    Field(b, 146, [m.decimals], m.sourceToken + b9);
    Field(b, 147, m.sourceToken, b9);
    Field(b, 179, Le(m.toChain, 2), m.to + rest);
    Field(b, 181, m.to, rest);
    assert b[146] == b[146..147][0];
    EightFit(m.amount);
    TwoFit(m.toChain);
    LeRoundTrip(m.amount, 8);
    LeRoundTrip(m.toChain, 2);
  }

  // --------------------------------------------------------- the on-chain rebuild

  lemma {:induction false} NttWireFields(m: ManagerMessage)
    requires MessageOk(m)
    ensures var t := NttWire(m);
            && |t| == NTT_WIRE_LEN && t[0..4] == NTT_PREFIX && t[4..5] == [m.decimals] && t[5..13] == Be(m.amount, 8)
            && t[13..45] == m.sourceToken && t[45..77] == m.to && t[77..79] == Be(m.toChain, 2)
  {
    var t := NttWire(m);
    var t2 := m.sourceToken + (m.to + Be(m.toChain, 2));
    assert t[0..] == t;
    Field(t, 0, NTT_PREFIX, [m.decimals] + (Be(m.amount, 8) + t2));
    Field(t, 4, [m.decimals], Be(m.amount, 8) + t2);
    Field(t, 5, Be(m.amount, 8), t2);
    Field(t, 13, m.sourceToken, m.to + Be(m.toChain, 2));
    Field(t, 45, m.to, Be(m.toChain, 2));
  }

  lemma {:induction false} WireFields(m: ManagerMessage)
    requires MessageOk(m)
    ensures var t := CanonicalWire(m);
            && |t| == CANONICAL_LEN && t[0..32] == m.id && t[32..64] == m.sender && t[64..66] == Be(NTT_WIRE_LEN, 2)
            && t[66..145] == NttWire(m)
  {
    var t := CanonicalWire(m);
    NttWireFields(m);
    assert NttWire(m) + [] == NttWire(m);
    assert t[0..] == t;
    Field(t, 0, m.id, m.sender + (Be(NTT_WIRE_LEN, 2) + NttWire(m)));
    Field(t, 32, m.sender, Be(NTT_WIRE_LEN, 2) + NttWire(m));
    Field(t, 64, Be(NTT_WIRE_LEN, 2), NttWire(m));
    assert t[66..145] == t[66..];
  }

  /** The transfer body, filled slice by slice. */
  method FillNttWire(m: ManagerMessage) returns (wire: bytes)
    requires MessageOk(m)
    ensures wire == NttWire(m)
  {
    ghost var t := NttWire(m);
    NttWireFields(m);
    var buf := new byte[79](i => 0);
    CopyField(buf, 0, NTT_PREFIX, t);
    CopyField(buf, 4, [m.decimals], t);
    CopyField(buf, 5, Be(m.amount, 8), t);
    CopyField(buf, 13, m.sourceToken, t);
    CopyField(buf, 45, m.to, t);
    CopyField(buf, 77, Be(m.toChain, 2), t);
    wire := buf[..];
    assert buf[..79] == buf[..] && t[..79] == t;
  }

  /**
   * Rebuilds the hash input from account bytes. It refuses exactly the accounts that are too short,
   * and otherwise yields the canonical big-endian form of the fields at their offsets.
   */
  method DeriveInboxItemPreimage(vtm: bytes) returns (r: Option<bytes>)
    ensures r.None? <==> |vtm| < VTM_LEN
    ensures r.Some? ==> r.value == InboxPreimage(ChainAt(vtm), MessageAt(vtm))
  {
    if |vtm| < VTM_LEN {
      return None;
    }
    var m := MessageAt(vtm);
    var nttWire := FillNttWire(m);
    WireFields(m);
    var msgWire := new byte[145](i => 0);
    CopyField(msgWire, 0, m.id, CanonicalWire(m));
    CopyField(msgWire, 32, m.sender, CanonicalWire(m));
    CopyField(msgWire, 64, Be(|nttWire|, 2), CanonicalWire(m));
    CopyField(msgWire, 66, nttWire, CanonicalWire(m));
    assert msgWire[..145] == msgWire[..] && CanonicalWire(m)[..145] == CanonicalWire(m);
    var hashInput := FillHashInput(ChainAt(vtm), msgWire[..]);
    r := Some(hashInput);
  }

  /** Chain id in front of the wire: the last step on chain, and all of it in the client. */
  method FillHashInput(fromChain: u16, wire: bytes) returns (buf: bytes)
    ensures buf == Be(fromChain, 2) + wire
  {
    ghost var t := Be(fromChain, 2) + wire;
    var a := new byte[2 + |wire|](i => 0);
    assert t[0..2] == Be(fromChain, 2) && t[2..2 + |wire|] == wire;
    CopyField(a, 0, Be(fromChain, 2), t);
    CopyField(a, 2, wire, t);
    buf := a[..];
    assert a[..2 + |wire|] == a[..] && t[..2 + |wire|] == t;
  }

  // ------------------------------------------------------------- the client's view

  datatype Resolved = Resolved(vaa: ParsedVaa, transceiver: Transceiver, message: ManagerMessage, preimage: bytes)

  ghost predicate Resolves(data: bytes, x: Resolved) {
    && VaaOk(x.vaa) && SerializeVaa(x.vaa) == data
    && (exists rest :: Carries(x.vaa.payload, x.transceiver, rest))
    && (exists n, rest :: IsWireOf(x.transceiver.managerPayload, x.message, n, rest))
    && x.preimage == Be(x.vaa.emitterChain, 2) + x.transceiver.managerPayload
  }

  /** Signed bytes to everything `receive` is addressed with; succeeds whenever a reading exists. */
  method ResolveNttVaa(data: bytes) returns (r: Result<Resolved, ParseError>)
    ensures r.Ok? ==> Resolves(data, r.value)
    ensures r.Err? ==> forall x :: !Resolves(data, x)
  {
    var vaa := ParseVaa(data);
    if vaa.Err? {
      return Err(vaa.error);
    }
    var transceiver, rest := ParseTransceiver(vaa.value.payload);
    if transceiver.Err? {
      forall x
        ensures !Resolves(data, x)
      {
        if Resolves(data, x) {
          VaaInjective(x.vaa, vaa.value);
        }
      }
      return Err(transceiver.error);
    }
    var message, innerLen, tail := ParseManagerMessage(transceiver.value.managerPayload);
    if message.Err? {
      forall x
        ensures !Resolves(data, x)
      {
        if Resolves(data, x) {
          VaaInjective(x.vaa, vaa.value);
          var y :| Carries(x.vaa.payload, x.transceiver, y);
          TransceiverUnique(vaa.value.payload, x.transceiver, y, transceiver.value, rest);
        }
      }
      return Err(message.error);
    }
    var preimage := FillHashInput(vaa.value.emitterChain, transceiver.value.managerPayload);
    r := Ok(Resolved(vaa.value, transceiver.value, message.value, preimage));
  }

  /** A VAA resolves to at most one reading. */
  lemma {:induction false} ResolvesOnce(data: bytes, x: Resolved, y: Resolved)
    requires Resolves(data, x) && Resolves(data, y)
    ensures x == y
  {
    VaaInjective(x.vaa, y.vaa);
    var rx :| Carries(x.vaa.payload, x.transceiver, rx);
    var ry :| Carries(y.vaa.payload, y.transceiver, ry);
    TransceiverUnique(x.vaa.payload, x.transceiver, rx, y.transceiver, ry);
    var nx, tx :| IsWireOf(x.transceiver.managerPayload, x.message, nx, tx);
    var ny, ty :| IsWireOf(y.transceiver.managerPayload, y.message, ny, ty);
    WireUnique(x.transceiver.managerPayload, x.message, nx, tx, y.message, ny, ty);
  }

  // ------------------------------------------------------------------ main results

  /**
   * For every VAA the client accepts and every account holding the same message from the same
   * chain, both sides hash the same bytes exactly when the manager payload is the canonical 145 bytes.
   */
  lemma {:induction false} PreimagesAgreeIff(data: bytes, x: Resolved, v: Vtm, rest: bytes)
    requires Resolves(data, x) && VtmOk(v) && v.fromChain == x.vaa.emitterChain && v.message == x.message
    ensures |VtmBytes(v, rest)| >= VTM_LEN
    ensures InboxPreimage(ChainAt(VtmBytes(v, rest)), MessageAt(VtmBytes(v, rest))) == x.preimage
            <==> |x.transceiver.managerPayload| == CANONICAL_LEN
  {
    LayoutRoundTrip(v, rest);
    var wire := x.transceiver.managerPayload;
    var n, tail :| IsWireOf(wire, x.message, n, tail);
    InnerLength(wire, x.message, n, tail);
    WireFields(x.message);
    if |wire| == CANONICAL_LEN {
      assert tail == [];
    }
  }

  /** Different chains or messages never share a preimage. */
  lemma {:induction false} PreimageInjective(c: u16, m: ManagerMessage, d: u16, n: ManagerMessage)
    requires MessageOk(m) && MessageOk(n) && InboxPreimage(c, m) == InboxPreimage(d, n)
    ensures c == d && m == n
  {
    SplitEqual(Be(c, 2), CanonicalWire(m), Be(d, 2), CanonicalWire(n));
    TwoFit(c); TwoFit(d);
    BeInjective(c, d, 2);
    WireFields(m);
    WireFields(n);
    NttWireInjective(m, n);
  }

  // ------------------------------------------------------------ transfer arguments

  datatype TransferArgs = TransferArgs(amount: u64, recipientChain: u16, recipient: bytes, shouldQueue: bool)

  function Packed(a: TransferArgs): bytes {
    Be(a.amount, 8) + (Be(a.recipientChain, 2) + (a.recipient + [if a.shouldQueue then 1 else 0]))
  }

  method PackBe(a: TransferArgs) returns (packed: bytes)
    requires |a.recipient| == 32
    ensures packed == Packed(a) && |packed| == 43
  {
    ghost var t := Packed(a);
    PackedFields(a);
    var buf := new byte[43](i => 0);
    CopyField(buf, 0, Be(a.amount, 8), t);
    CopyField(buf, 8, Be(a.recipientChain, 2), t);
    CopyField(buf, 10, a.recipient, t);
    CopyField(buf, 42, [if a.shouldQueue then 1 else 0], t);
    packed := buf[..];
    assert buf[..43] == buf[..] && t[..43] == t;
  }

  lemma {:induction false} PackedFields(a: TransferArgs)
    requires |a.recipient| == 32
    ensures var t := Packed(a);
            && |t| == 43 && t[0..8] == Be(a.amount, 8) && t[8..10] == Be(a.recipientChain, 2)
            && t[10..42] == a.recipient && t[42..43] == [if a.shouldQueue then 1 else 0]
  {
    var t, q: bytes := Packed(a), [if a.shouldQueue then 1 else 0];
    assert t[0..] == t;
    Field(t, 0, Be(a.amount, 8), Be(a.recipientChain, 2) + (a.recipient + q));
    Field(t, 8, Be(a.recipientChain, 2), a.recipient + q);
    Field(t, 10, a.recipient, q);
    assert t[42..43] == t[42..];
  }

  /** A session authority is bound to one amount, chain, recipient and queueing choice. */
  lemma {:induction false} PackedInjective(a: TransferArgs, b: TransferArgs)
    requires |a.recipient| == 32 && |b.recipient| == 32 && Packed(a) == Packed(b)
    ensures a == b
  {
    PackedFields(a);
    PackedFields(b);
    EightFit(a.amount); EightFit(b.amount);
    TwoFit(a.recipientChain); TwoFit(b.recipientChain);
    BeInjective(a.amount, b.amount, 8);
    BeInjective(a.recipientChain, b.recipientChain, 2);
    assert Packed(a)[42..43][0] == Packed(b)[42..43][0];
  }
}
