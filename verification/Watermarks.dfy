/** Highest sequence seen per source chain and emitter, and its persistence. */
module Watermarks {
  import opened Prelude
  import opened Decimal
  import opened BigIntText

  const BACKFILL_COUNT: nat := 5

  /** Values are plain integers: a restored snapshot may hold any. */
  type Store = map<string, int>

  function WatermarkKey(chain: nat, emitter: string): string { Digits(chain) + (":" + emitter) }

  function Mark(store: Store, key: string): int { if key in store then store[key] else 0 }

  function PagingFloor(store: Store, chain: nat, emitter: string): nat {
    var wm := Mark(store, WatermarkKey(chain, emitter));
    if wm > BACKFILL_COUNT then wm - BACKFILL_COUNT else 0
  }

  function Recorded(store: Store, key: string, sequence: nat): Store {
    if sequence > Mark(store, key) then store[key := sequence] else store
  }

  predicate HasColon(k: string) { ':' in k }

  function ColonAt(s: string): nat { if s == [] || s[0] == ':' then 0 else 1 + ColonAt(s[1..]) }

  lemma {:induction false} ColonAfterDigits(digits: string, rest: string)
    requires AllDigits(digits)
    ensures ColonAt(digits + (":" + rest)) == |digits|
  {
    if digits != [] {
      assert (digits + (":" + rest))[1..] == digits[1..] + (":" + rest);
      ColonAfterDigits(digits[1..], rest);
    }
  }

  lemma {:induction false} FirstColon(digits: string, other: string, a: string, b: string)
    requires AllDigits(digits) && AllDigits(other) && digits + (":" + a) == other + (":" + b)
    ensures digits == other && a == b
  {
    var s, t := digits + (":" + a), other + (":" + b);
    ColonAfterDigits(digits, a);
    ColonAfterDigits(other, b);
    assert digits == s[..|digits|] && other == t[..|other|];
    assert a == s[|digits| + 1..] && b == t[|other| + 1..];
  }

  /** Two sources that share an emitter but not a chain, or the reverse, never share a watermark. */
  lemma {:induction false} KeyIsInjective(c: nat, e: string, d: nat, f: string)
    requires WatermarkKey(c, e) == WatermarkKey(d, f)
    ensures c == d && e == f
  {
    DigitsAreDigits(c);
    DigitsAreDigits(d);
    FirstColon(Digits(c), Digits(d), e, f);
  }

  lemma {:induction false} KeyHasColon(c: nat, e: string)
    ensures HasColon(WatermarkKey(c, e))
  {
    assert WatermarkKey(c, e)[|Digits(c)|] == ':';
  }

  // ------------------------------------------------------------------ shared updates

  datatype Seen = Seen(chain: nat, emitter: string, sequence: nat) {
    function Key(): string { WatermarkKey(chain, emitter) }
  }

  function Replay(records: seq<Seen>): Store {
    if records == [] then map[]
    else
      var r := records[|records| - 1];
      Recorded(Replay(records[..|records| - 1]), r.Key(), r.sequence)
  }

  /** `m` is the largest sequence recorded under a key, zero if there is none. */
  predicate IsMax(records: seq<Seen>, key: string, m: int) {
    && (forall r :: r in records && r.Key() == key ==> r.sequence <= m)
    && (m > 0 ==> exists r :: r in records && r.Key() == key && r.sequence == m)
  }

  lemma {:induction false} ReplayIsMax(records: seq<Seen>, key: string)
    ensures Mark(Replay(records), key) >= 0 && IsMax(records, key, Mark(Replay(records), key))
    ensures key in Replay(records) ==> Replay(records)[key] > 0 && HasColon(key)
  {
    if records != [] {
      var before, r := records[..|records| - 1], records[|records| - 1];
      ReplayIsMax(before, key);
      KeyHasColon(r.chain, r.emitter);
      assert records == before + [r];
      var m := Mark(Replay(records), key);
      if m > 0 && m == Mark(Replay(before), key) {
        var w :| w in before && w.Key() == key && w.sequence == m;
        assert w in records;
      } else if m > 0 {
        assert r in records && r.Key() == key && r.sequence == m;
      }
    }
  }

  lemma {:induction false} MaxIsUnique(records: seq<Seen>, key: string, m: nat, n: nat)
    requires IsMax(records, key, m) && IsMax(records, key, n)
    ensures m == n
  {
  }

  /** Whatever order workers record in, the store ends up the same. */
  lemma {:induction false} OrderDoesNotMatter(a: seq<Seen>, b: seq<Seen>)
    requires multiset(a) == multiset(b)
    ensures Replay(a) == Replay(b)
  {
    assert forall r :: r in a <==> r in multiset(a);
    assert forall r :: r in b <==> r in multiset(b);
    forall key
      ensures Mark(Replay(a), key) == Mark(Replay(b), key) && (key in Replay(a) <==> key in Replay(b))
    {
      ReplayIsMax(a, key);
      ReplayIsMax(b, key);
    }
  }

  class WatermarkStore {
    var store: Store

    constructor ()
      ensures store == map[]
    {
      store := map[];
    }

    method RecordSeen(chain: nat, emitter: string, sequence: nat)
      modifies this
      ensures store == Recorded(old(store), WatermarkKey(chain, emitter), sequence)
    {
      var k := WatermarkKey(chain, emitter);
      var cur := if k in store then store[k] else 0;
      if sequence > cur {
        store := store[k := sequence];
      }
    }
  }

  // --------------------------------------------------------------------- persistence

  function Snapshot(store: Store): map<string, string> { map k | k in store :: PrintBigInt(store[k]) }

  /** Entries without a chain prefix and entries that are not numbers are dropped. */
  function Restored(snapshot: map<string, string>): Store {
    map k | k in snapshot && HasColon(k) && ParseBigInt(snapshot[k]).Some? :: ParseBigInt(snapshot[k]).value
  }

  method SnapshotWatermarks(store: Store) returns (out: map<string, string>)
    ensures out == Snapshot(store)
  {
    out := map[];
    var left := store.Keys;
    while left != {}
      invariant left <= store.Keys && out.Keys == store.Keys - left
      invariant forall k :: k in out ==> out[k] == PrintBigInt(store[k])
      decreases left
    {
      var k :| k in left;
      out := out[k := PrintBigInt(store[k])];
      left := left - {k};
    }
  }

  method RestoreWatermarks(snapshot: map<string, string>) returns (out: Store)
    ensures out == Restored(snapshot)
  {
    out := map[];
    var left := snapshot.Keys;
    while left != {}
      invariant left <= snapshot.Keys
      invariant out == map k | k in Restored(snapshot) && k !in left :: Restored(snapshot)[k]
      decreases left
    {
      var k :| k in left;
      left := left - {k};
      if !HasColon(k) {
        continue;
      }
      var value := ParseBigInt(snapshot[k]);
      if value.Some? {
        out := out[k := value.value];
      }
    }
  }

  /** What becomes of one key. */
  lemma {:induction false} RestoredKey(store: Store, k: string)
    ensures k in Restored(Snapshot(store)) <==> k in store && HasColon(k)
    ensures k in Restored(Snapshot(store)) ==> Restored(Snapshot(store))[k] == store[k]
  {
    if k in store {
      PrintedIsRead(store[k]);
    }
  }

  /** Saving and restoring loses nothing exactly when every key carries its chain prefix. */
  lemma {:induction false} SnapshotRoundTripIff(store: Store)
    ensures Restored(Snapshot(store)) == store <==> forall k :: k in store ==> HasColon(k)
  {
    var back := Restored(Snapshot(store));
    forall k
      ensures k in back <==> k in store && HasColon(k)
      ensures k in back ==> back[k] == store[k]
    {
      RestoredKey(store, k);
    }
    SameWhenKept(store, back);
  }

  lemma {:induction false} SameWhenKept(store: Store, back: Store)
    requires forall k :: k in back <==> k in store && HasColon(k)
    requires forall k :: k in back ==> back[k] == store[k]
    ensures back == store <==> forall k :: k in store ==> HasColon(k)
  {
    if forall k :: k in store ==> HasColon(k) {
      assert back.Keys == store.Keys;
    }
  }

  /** Every store the cranker builds survives a restart. */
  lemma {:induction false} BuiltStoresSurvive(records: seq<Seen>)
    ensures Restored(Snapshot(Replay(records))) == Replay(records)
  {
    forall k | k in Replay(records)
      ensures HasColon(k)
    {
      ReplayIsMax(records, k);
    }
    SnapshotRoundTripIff(Replay(records));
  }
}
