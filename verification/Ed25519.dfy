/** The signature-verifier instruction that reuses a key embedded in the message, and its reader. */
module Ed25519 {
  import opened Prelude
  import opened Bytes

  const HEADER_LEN: nat := 16
  const COUNT_LEN: nat := 2
  const ENTRY_LEN: nat := 14
  const CURRENT_IX: nat := 0xFFFF

  predicate OccursAt(haystack: bytes, needle: bytes, i: nat) {
    i + |needle| <= |haystack| && haystack[i..i + |needle|] == needle
  }

  /** First occurrence, or none. */
  method IndexOfBytes(haystack: bytes, needle: bytes) returns (r: Option<nat>)
    ensures r.None? ==> forall i :: !OccursAt(haystack, needle, i)
    ensures r.Some? ==> OccursAt(haystack, needle, r.value) && forall i :: 0 <= i < r.value ==> !OccursAt(haystack, needle, i)
  {
    var i := 0;
    while i + |needle| <= |haystack|
      invariant forall j :: 0 <= j < i ==> !OccursAt(haystack, needle, j)
    {
      if haystack[i..i + |needle|] == needle {
        return Some(i);
      }
      i := i + 1;
    }
    r := None;
  }

  // ---------------------------------------------------------------------- the writer

  /** Count, padding and one offsets entry; `setUint16` keeps the low sixteen bits. */
  function Header(signatureLen: nat, messageLen: nat, embeddedAt: nat): bytes {
    var messageOffset := HEADER_LEN + signatureLen;
    [1, 0] + (Le(HEADER_LEN, 2) + (Le(CURRENT_IX, 2) + (Le(messageOffset + embeddedAt, 2) + (Le(CURRENT_IX, 2) +
    (Le(messageOffset, 2) + (Le(messageLen, 2) + Le(CURRENT_IX, 2)))))))
  }

  function VerifierData(signature: bytes, message: bytes, embeddedAt: nat): bytes {
    Header(|signature|, |message|, embeddedAt) + (signature + message)
  }

  lemma {:induction false} HeaderFields(signatureLen: nat, messageLen: nat, embeddedAt: nat)
    ensures var h, o := Header(signatureLen, messageLen, embeddedAt), HEADER_LEN + signatureLen;
            && |h| == HEADER_LEN && h[0..2] == [1, 0] && h[2..4] == Le(HEADER_LEN, 2) && h[4..6] == Le(CURRENT_IX, 2)
            && h[6..8] == Le(o + embeddedAt, 2) && h[8..10] == Le(CURRENT_IX, 2) && h[10..12] == Le(o, 2)
            && h[12..14] == Le(messageLen, 2) && h[14..16] == Le(CURRENT_IX, 2)
  {
    var h, o := Header(signatureLen, messageLen, embeddedAt), HEADER_LEN + signatureLen;
    EightPairs(h, [1, 0], Le(HEADER_LEN, 2), Le(CURRENT_IX, 2), Le(o + embeddedAt, 2), Le(CURRENT_IX, 2), Le(o, 2),
               Le(messageLen, 2), Le(CURRENT_IX, 2));
  }

  lemma {:induction false} EightPairs(h: bytes, a: bytes, b: bytes, c: bytes, d: bytes, e: bytes, f: bytes, g: bytes, i: bytes)
    requires |a| == |b| == |c| == |d| == |e| == |f| == |g| == |i| == 2
    requires h == a + (b + (c + (d + (e + (f + (g + i))))))
    ensures |h| == 16 && h[0..2] == a && h[2..4] == b && h[4..6] == c && h[6..8] == d && h[8..10] == e
    ensures h[10..12] == f && h[12..14] == g && h[14..16] == i
  {
    var h7 := g + i;
    var h5 := e + (f + h7);
    var h3 := c + (d + h5);
    assert h[0..] == h;
    Field(h, 0, a, b + h3);
    Field(h, 2, b, h3);
    Field(h, 4, c, d + h5);
    Field(h, 6, d, h5);
    Field(h, 8, e, f + h7);
    Field(h, 10, f, h7);
    Field(h, 12, g, i);
    assert h[14..16] == h[14..];
  }

  lemma {:induction false} PrefixFields(head: bytes, tail: bytes, a: nat, b: nat)
    requires a <= b <= |head|
    ensures (head + tail)[a..b] == head[a..b]
  {
  }

  /** The instruction data when the key occurs in the message; otherwise the library builds it. */
  method BuildIntentVerifierIx(publicKey: bytes, signature: bytes, message: bytes) returns (r: Option<bytes>, ghost at: nat)
    ensures r.None? <==> forall i :: !OccursAt(message, publicKey, i)
    ensures r.Some? ==> OccursAt(message, publicKey, at) && r.value == VerifierData(signature, message, at)
    ensures r.Some? ==> forall i :: 0 <= i < at ==> !OccursAt(message, publicKey, i)
  {
    at := 0;
    var embedded := IndexOfBytes(message, publicKey);
    if embedded.None? {
      return None, 0;
    }
    at := embedded.value;
    assert OccursAt(message, publicKey, at);
    var data := FillVerifierData(signature, message, embedded.value);
    r := Some(data);
  }

  method FillVerifierData(signature: bytes, message: bytes, embeddedAt: nat) returns (out: bytes)
    ensures out == VerifierData(signature, message, embeddedAt)
  {
    var messageOffset := HEADER_LEN + |signature|;
    ghost var h := Header(|signature|, |message|, embeddedAt);
    ghost var t := VerifierData(signature, message, embeddedAt);
    HeaderFields(|signature|, |message|, embeddedAt);
    var header := FillHeader(|signature|, |message|, embeddedAt);
    var data := new byte[messageOffset + |message|](i => 0);
    assert t[0..] == t;
    Field(t, 0, h, signature + message);
    Field(t, HEADER_LEN, signature, message);
    assert t[messageOffset..messageOffset + |message|] == t[messageOffset..];
    CopyField(data, 0, header, t);
    CopyField(data, HEADER_LEN, signature, t);
    CopyField(data, messageOffset, message, t);
    out := data[..];
    assert data[..messageOffset + |message|] == data[..] && t[..messageOffset + |message|] == t;
  }

  method FillHeader(signatureLen: nat, messageLen: nat, embeddedAt: nat) returns (out: bytes)
    ensures out == Header(signatureLen, messageLen, embeddedAt)
  {
    ghost var h := Header(signatureLen, messageLen, embeddedAt);
    HeaderFields(signatureLen, messageLen, embeddedAt);
    var o := HEADER_LEN + signatureLen;
    var data := new byte[16](i => 0);
    CopyField(data, 0, [1, 0], h);
    CopyField(data, 2, Le(HEADER_LEN, 2), h);
    CopyField(data, 4, Le(CURRENT_IX, 2), h);
    CopyField(data, 6, Le(o + embeddedAt, 2), h);
    CopyField(data, 8, Le(CURRENT_IX, 2), h);
    CopyField(data, 10, Le(o, 2), h);
    CopyField(data, 12, Le(messageLen, 2), h);
    CopyField(data, 14, Le(CURRENT_IX, 2), h);
    out := data[..];
    assert data[..16] == data[..] && h[..16] == h;
  }

  // ---------------------------------------------------------------------- the reader

  predicate HasEntry(data: bytes, i: nat) { COUNT_LEN + i * ENTRY_LEN + ENTRY_LEN <= |data| }

  /** What one offsets entry contributes: its message, if it is inline and in range. */
  function EntryMessage(data: bytes, entry: nat): seq<bytes>
    requires entry + ENTRY_LEN <= |data|
  {
    var offset, size := FromLe(data[entry + 8..entry + 10]), FromLe(data[entry + 10..entry + 12]);
    if FromLe(data[entry + 12..entry + 14]) != CURRENT_IX || offset + size > |data| then []
    else [data[offset..offset + size]]
  }

  /** The messages of the first `n` entries, as far as the data holds them. */
  function MessagesUpTo(data: bytes, n: nat): seq<bytes> {
    if n == 0 then []
    else MessagesUpTo(data, n - 1) +
         (if HasEntry(data, n - 1) then EntryMessage(data, COUNT_LEN + (n - 1) * ENTRY_LEN) else [])
  }

  function InlineMessages(data: bytes): seq<bytes> {
    if |data| < COUNT_LEN then [] else MessagesUpTo(data, data[0])
  }

  lemma {:induction false} NoMoreEntries(data: bytes, i: nat, n: nat)
    requires i <= n && !HasEntry(data, i)
    ensures MessagesUpTo(data, n) == MessagesUpTo(data, i)
  {
    if i < n {
      NoMoreEntries(data, i, n - 1);
    }
  }

  method ReadEntry(data: bytes, entry: nat) returns (message: seq<bytes>)
    requires entry + ENTRY_LEN <= |data|
    ensures message == EntryMessage(data, entry)
  {
    if FromLe(data[entry + 12..entry + 14]) != CURRENT_IX {
      return [];
    }
    var offset := FromLe(data[entry + 8..entry + 10]);
    var size := FromLe(data[entry + 10..entry + 12]);
    if offset + size > |data| {
      return [];
    }
    message := [data[offset..offset + size]];
  }

  /** Reads any instruction data without leaving its bounds. */
  method Ed25519InlineMessages(data: bytes) returns (messages: seq<bytes>)
    ensures messages == InlineMessages(data)
  {
    if |data| < COUNT_LEN {
      return [];
    }
    messages := [];
    for i := 0 to data[0]
      invariant messages == MessagesUpTo(data, i)
    {
      var entry := COUNT_LEN + i * ENTRY_LEN;
      if entry + ENTRY_LEN > |data| {
        NoMoreEntries(data, i, data[0]);
        return;
      }
      var message := ReadEntry(data, entry);
      messages := messages + message;
    }
  }

  /** Entry `i` is complete, inline and in range, and its message is `m`; positions as the precompile lays them out. */
  predicate CarriesAt(data: bytes, i: nat, m: bytes) {
    var e := 2 + 14 * i;
    && e + 14 <= |data| && FromLe(data[e + 12..e + 14]) == 0xFFFF
    && FromLe(data[e + 8..e + 10]) + FromLe(data[e + 10..e + 12]) <= |data|
    && m == data[FromLe(data[e + 8..e + 10])..FromLe(data[e + 8..e + 10]) + FromLe(data[e + 10..e + 12])]
  }

  /** The reader returns exactly the messages that the announced entries carry. */
  lemma {:induction false} InlineMessageIff(data: bytes, m: bytes)
    ensures m in InlineMessages(data) <==> |data| >= 2 && exists i :: 0 <= i < data[0] && CarriesAt(data, i, m)
  {
    if |data| >= 2 {
      MessagesUpToIff(data, data[0], m);
    }
  }

  lemma {:induction false} EntryIff(data: bytes, i: nat, m: bytes)
    ensures CarriesAt(data, i, m) <==> HasEntry(data, i) && m in EntryMessage(data, COUNT_LEN + i * ENTRY_LEN)
  {
  }

  lemma {:induction false} MessagesUpToIff(data: bytes, n: nat, m: bytes)
    ensures m in MessagesUpTo(data, n) <==> exists i :: 0 <= i < n && CarriesAt(data, i, m)
  {
    if n > 0 {
      MessagesUpToIff(data, n - 1, m);
      EntryIff(data, n - 1, m);
      if m in MessagesUpTo(data, n - 1) {
        var i :| 0 <= i < n - 1 && CarriesAt(data, i, m);
        assert 0 <= i < n && CarriesAt(data, i, m);
      }
    }
  }

  // ------------------------------------------------------------------- main results

  lemma {:induction false} LeValue(n: nat)
    requires n <= U16_MAX
    ensures FromLe(Le(n, 2)) == n
  {
    TwoFit(n);
    LeRoundTrip(n, 2);
  }

  lemma {:induction false} HeadOfData(signature: bytes, message: bytes, at: nat)
    ensures var d := VerifierData(signature, message, at);
            && |d| >= HEADER_LEN + |signature| && d[0..2] == [1, 0] && d[2..4] == Le(HEADER_LEN, 2)
            && d[4..6] == Le(CURRENT_IX, 2) && d[8..10] == Le(CURRENT_IX, 2)
            && d[HEADER_LEN..HEADER_LEN + |signature|] == signature
  {
    var h, tail := Header(|signature|, |message|, at), signature + message;
    var d := VerifierData(signature, message, at);
    HeaderFields(|signature|, |message|, at);
    PrefixFields(h, tail, 0, 2);
    PrefixFields(h, tail, 2, 4);
    PrefixFields(h, tail, 4, 6);
    PrefixFields(h, tail, 8, 10);
    assert d[0..] == d;
    Field(d, 0, h, tail);
    Field(d, HEADER_LEN, signature, message);
  }

  /** Where the written fields stand in the whole data. */
  lemma {:induction false} DataFields(signature: bytes, message: bytes, at: nat)
    ensures var d, o := VerifierData(signature, message, at), HEADER_LEN + |signature|;
            && |d| == o + |message| && d[0] == 1 && d[o..o + |message|] == message
            && d[6..8] == Le(o + at, 2) && d[10..12] == Le(o, 2) && d[12..14] == Le(|message|, 2)
            && d[14..16] == Le(CURRENT_IX, 2)
  {
    HeadOfData(signature, message, at);
    var h, tail := Header(|signature|, |message|, at), signature + message;
    var d, o := VerifierData(signature, message, at), HEADER_LEN + |signature|;
    HeaderFields(|signature|, |message|, at);
    PrefixFields(h, tail, 6, 8);
    PrefixFields(h, tail, 10, 12);
    PrefixFields(h, tail, 12, 14);
    PrefixFields(h, tail, 14, 16);
    assert d[0] == h[0] == h[0..2][0];
    assert d[0..] == d;
    Field(d, 0, h, tail);
    Field(d, HEADER_LEN, signature, message);
    assert d[o..o + |message|] == d[o..];
  }

  /**
   * When the offsets fit sixteen bits, the reader gets exactly the original message, and the one
   * entry points, in this instruction itself, at the signature and at the signer's key.
   */
  lemma {:induction false} VerifierRoundTrip(publicKey: bytes, signature: bytes, message: bytes, at: nat)
    requires OccursAt(message, publicKey, at)
    requires HEADER_LEN + |signature| + at <= U16_MAX && |message| <= U16_MAX
    ensures var d := VerifierData(signature, message, at);
            && InlineMessages(d) == [message]
            && |d| >= HEADER_LEN && d[0] == 1 && d[1] == 0
            && OccursAt(d, signature, FromLe(d[2..4])) && OccursAt(d, publicKey, FromLe(d[6..8]))
            && FromLe(d[4..6]) == FromLe(d[8..10]) == FromLe(d[14..16]) == 0xFFFF
  {
    HeadOfData(signature, message, at);
    assert VerifierData(signature, message, at)[0..2][1] == 0;
    LeValue(HEADER_LEN);
    LeValue(CURRENT_IX);
    var d, o := VerifierData(signature, message, at), HEADER_LEN + |signature|;
    DataFields(signature, message, at);
    LeValue(o + at);
    SingleEntry(d, o, message);
    KeyInMessage(d, o, message, publicKey, at);
  }

  lemma {:induction false} SingleEntry(d: bytes, o: nat, message: bytes)
    requires HEADER_LEN <= |d| == o + |message| && d[0] == 1 && d[o..o + |message|] == message
    requires o <= U16_MAX && |message| <= U16_MAX
    requires d[10..12] == Le(o, 2) && d[12..14] == Le(|message|, 2) && d[14..16] == Le(CURRENT_IX, 2)
    ensures InlineMessages(d) == [message]
  {
    LeValue(o);
    LeValue(|message|);
    LeValue(CURRENT_IX);
    assert EntryMessage(d, 2) == [message];
    assert MessagesUpTo(d, 0) == [];
  }

  lemma {:induction false} KeyInMessage(d: bytes, o: nat, message: bytes, publicKey: bytes, at: nat)
    requires |d| == o + |message| && d[o..o + |message|] == message && OccursAt(message, publicKey, at)
    ensures OccursAt(d, publicKey, o + at)
  {
    SubSlice(d, o, |message|, at, at + |publicKey|);
  }
}
