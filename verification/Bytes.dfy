/** Byte strings, fixed-width integers in both byte orders, and in-place buffers. */
module Bytes {
  import opened Prelude

  type byte = x: int | 0 <= x < 256
  type bytes = seq<byte>

  /** Big-endian, `width` bytes, dropping anything above. */
  function Be(n: nat, width: nat): (b: bytes)
    ensures |b| == width
  {
    if width == 0 then [] else Be(n / 256, width - 1) + [n % 256]
  }

  function FromBe(b: bytes): nat {
    if b == [] then 0 else FromBe(b[..|b| - 1]) * 256 + b[|b| - 1]
  }

  function Le(n: nat, width: nat): (b: bytes)
    ensures |b| == width
  {
    if width == 0 then [] else [n % 256] + Le(n / 256, width - 1)
  }

  function FromLe(b: bytes): nat {
    if b == [] then 0 else b[0] + 256 * FromLe(b[1..])
  }

  predicate Fits(n: nat, width: nat) { n < Pow(256, width) }

  lemma {:induction false} FitsDown(n: nat, width: nat)
    requires width > 0 && Fits(n, width)
    ensures Fits(n / 256, width - 1)
  {
  }

  lemma {:induction false} BeRoundTrip(n: nat, width: nat)
    requires Fits(n, width)
    ensures FromBe(Be(n, width)) == n
  {
    if width > 0 {
      FitsDown(n, width);
      BeRoundTrip(n / 256, width - 1);
      assert Be(n, width)[..width - 1] == Be(n / 256, width - 1);
    }
  }

  lemma {:induction false} LeRoundTrip(n: nat, width: nat)
    requires Fits(n, width)
    ensures FromLe(Le(n, width)) == n
  {
    if width > 0 {
      FitsDown(n, width);
      LeRoundTrip(n / 256, width - 1);
    }
  }

  lemma {:induction false} AppendDigit(high: nat, low: byte, bound: nat)
    requires high < bound
    ensures high * 256 + low < 256 * bound
    ensures (high * 256 + low) / 256 == high && (high * 256 + low) % 256 == low
  {
  }

  lemma {:induction false} FromBeFits(b: bytes)
    ensures Fits(FromBe(b), |b|) && Be(FromBe(b), |b|) == b
  {
    if b != [] {
      FromBeFits(b[..|b| - 1]);
      AppendDigit(FromBe(b[..|b| - 1]), b[|b| - 1], Pow(256, |b| - 1));
    }
  }

  lemma {:induction false} FromLeFits(b: bytes)
    ensures Fits(FromLe(b), |b|) && Le(FromLe(b), |b|) == b
  {
    if b != [] {
      FromLeFits(b[1..]);
      AppendDigit(FromLe(b[1..]), b[0], Pow(256, |b| - 1));
    }
  }

  lemma {:induction false} Widths()
    ensures Pow(256, 1) == 0x100 && Pow(256, 2) == 0x1_0000 && Pow(256, 4) == 0x1_0000_0000
    ensures Pow(256, 8) == 0x1_0000_0000_0000_0000
  {
    assert Pow(256, 4) == 256 * (256 * Pow(256, 2));
    assert Pow(256, 6) == 256 * (256 * Pow(256, 4));
    assert Pow(256, 8) == 256 * (256 * Pow(256, 6));
  }

  /** Equal concatenations with equally long heads agree piece by piece. */
  lemma {:induction false} SplitEqual<T>(a: seq<T>, b: seq<T>, c: seq<T>, d: seq<T>)
    requires a + b == c + d && |a| == |c|
    ensures a == c && b == d
  {
    assert a == (a + b)[..|a|] && c == (c + d)[..|a|];
    assert b == (a + b)[|a|..] && d == (c + d)[|a|..];
  }

  /** Reading one field off the front of what is left of a buffer. */
  lemma {:induction false} Field<T>(whole: seq<T>, at: nat, head: seq<T>, tail: seq<T>)
    requires at <= |whole| && whole[at..] == head + tail
    ensures at + |head| <= |whole| && whole[at..at + |head|] == head && whole[at + |head|..] == tail
  {
    assert whole[at..at + |head|] == whole[at..][..|head|];
    assert whole[at + |head|..] == whole[at..][|head|..];
  }

  lemma {:induction false} Join<T>(s: seq<T>, a: nat, b: nat, c: nat)
    requires a <= b <= c <= |s|
    ensures s[a..c] == s[a..b] + s[b..c]
  {
  }

  lemma {:induction false} SubSlice(s: bytes, at: nat, len: nat, i: nat, j: nat)
    requires at + len <= |s| && i <= j <= len
    ensures s[at..at + len][i..j] == s[at + i..at + j]
  {
    var a, b := s[at..at + len][i..j], s[at + i..at + j];
    assert |a| == |b|;
    assert forall k :: 0 <= k < |a| ==> a[k] == s[at + i + k] == b[k];
    assert a == b;
  }

  lemma {:induction false} TwoFit(n: u16)
    ensures Fits(n, 2)
  {
    Widths();
  }

  lemma {:induction false} EightFit(n: u64)
    ensures Fits(n, 8)
  {
    Widths();
  }

  /** `copy_from_slice` and `Uint8Array.set`. */
  method CopyInto(dst: array<byte>, at: nat, src: bytes)
    requires at + |src| <= dst.Length
    modifies dst
    ensures dst[..] == old(dst[..at]) + src + old(dst[at + |src|..])
  {
    for i := 0 to |src|
      invariant forall k :: 0 <= k < dst.Length ==>
                  dst[k] == if at <= k < at + i then src[k - at] else old(dst[k])
    {
      dst[at + i] := src[i];
    }
    assert |dst[..]| == |old(dst[..at]) + src + old(dst[at + |src|..])|;
  }

  /** Copies the next field of `target` behind a prefix that is already in place. */
  method CopyField(dst: array<byte>, at: nat, src: bytes, ghost target: bytes)
    requires at + |src| <= dst.Length && at + |src| <= |target|
    requires dst[..at] == target[..at] && target[at..at + |src|] == src
    modifies dst
    ensures dst[..at + |src|] == target[..at + |src|]
  {
    CopyInto(dst, at, src);
    Join(target, 0, at, at + |src|);
    assert target[0..at] == target[..at] && target[0..at + |src|] == target[..at + |src|];
  }
}
