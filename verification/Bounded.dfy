/** An insertion-ordered map with a size limit, and its relation to the unlimited map. */
module Bounded {
  import opened Prelude

  /** A map that remembers the order its keys were first inserted in. */
  datatype Ordered<K, V> = Ordered(order: seq<K>, entries: map<K, V>)

  function Without<K(==)>(s: seq<K>, gone: set<K>): seq<K> {
    if s == [] then []
    else if s[0] in gone then Without(s[1..], gone)
    else [s[0]] + Without(s[1..], gone)
  }

  predicate Distinct<K(==)>(s: seq<K>) { forall i, j :: 0 <= i < j < |s| ==> s[i] != s[j] }

  ghost predicate OrderedOk<K, V>(o: Ordered<K, V>) {
    Distinct(o.order) && (forall k :: k in o.order ==> k in o.entries) && (forall k :: k in o.entries ==> k in o.order)
  }

  /** `Map.set`: an existing key keeps its place. */
  function Put<K(==), V>(o: Ordered<K, V>, k: K, v: V): Ordered<K, V> {
    Ordered(if k in o.entries then o.order else o.order + [k], o.entries[k := v])
  }

  function Delete<K(==), V>(o: Ordered<K, V>, k: K): Ordered<K, V> {
    Ordered(Without(o.order, {k}), o.entries - {k})
  }

  /** `BoundedMap.set`: a new key at the limit first drops the oldest. */
  function PutBounded<K(==), V>(o: Ordered<K, V>, max: nat, k: K, v: V): Ordered<K, V> {
    if k !in o.entries && |o.order| >= max && o.order != [] then Put(Delete(o, o.order[0]), k, v)
    else Put(o, k, v)
  }

  // ---------------------------------------------------------------- basic lemmas

  lemma {:induction false} WithoutMembers<K(!new)>(s: seq<K>, gone: set<K>)
    ensures forall k :: k in Without(s, gone) <==> k in s && k !in gone
    ensures |Without(s, gone)| <= |s|
    ensures Distinct(s) ==> Distinct(Without(s, gone))
  {
    if s != [] {
      WithoutMembers(s[1..], gone);
      assert s == [s[0]] + s[1..];
      assert Distinct(s) ==> Distinct(s[1..]) && s[0] !in s[1..];
    }
  }

  lemma {:induction false} WithoutNothing<K(!new)>(s: seq<K>, gone: set<K>)
    requires forall k :: k in s ==> k !in gone
    ensures Without(s, gone) == s
  {
    if s != [] {
      WithoutNothing(s[1..], gone);
    }
  }

  lemma {:induction false} WithoutTwice<K(!new)>(s: seq<K>, a: set<K>, b: set<K>)
    ensures Without(Without(s, a), b) == Without(s, a + b)
  {
    if s != [] {
      WithoutTwice(s[1..], a, b);
      if s[0] !in a {
        assert Without(s, a)[1..] == Without(s[1..], a);
      }
    }
  }

  lemma {:induction false} DropFirst<K(!new)>(s: seq<K>)
    requires Distinct(s) && s != []
    ensures Without(s, {s[0]}) == s[1..]
  {
    WithoutNothing(s[1..], {s[0]});
  }

  lemma {:induction false} DistinctCount<K(!new)>(s: seq<K>, keys: set<K>)
    requires Distinct(s) && forall k :: k in s <==> k in keys
    ensures |s| == |keys|
  {
    if s == [] {
      assert keys == {};
    } else {
      assert s[0] in s && s == [s[0]] + s[1..];
      DistinctCount(s[1..], keys - {s[0]});
    }
  }

  lemma {:induction false} DistinctSize<K(!new), V>(o: Ordered<K, V>)
    requires OrderedOk(o)
    ensures |o.order| == |o.entries|
  {
    DistinctCount(o.order, o.entries.Keys);
  }

  lemma {:induction false} DeleteOk<K(!new), V>(o: Ordered<K, V>, k: K)
    requires OrderedOk(o)
    ensures OrderedOk(Delete(o, k))
  {
    WithoutMembers(o.order, {k});
  }

  lemma {:induction false} PutBoundedOk<K(!new), V>(o: Ordered<K, V>, max: nat, k: K, v: V)
    requires OrderedOk(o) && |o.order| <= max && max > 0
    ensures var r := PutBounded(o, max, k, v); OrderedOk(r) && |r.order| <= max && k in r.entries && r.entries[k] == v
  {
    if k !in o.entries && |o.order| >= max {
      DeleteOk(o, o.order[0]);
      DropFirst(o.order);
    }
  }

  // ------------------------------------------------------------------- the class

  class BoundedMap<K(==,!new), V> {
    const max: nat
    var order: seq<K>
    var entries: map<K, V>

    function View(): Ordered<K, V>
      reads this
    {
      Ordered(order, entries)
    }

    ghost predicate Valid()
      reads this
    {
      max > 0 && OrderedOk(View()) && |order| <= max
    }

    /** The constructor throws on a limit of zero or less. */
    constructor (max: nat)
      requires max > 0
      ensures Valid() && this.max == max && View() == Ordered([], map[])
    {
      this.max, order, entries := max, [], map[];
    }

    method Get(k: K) returns (v: Option<V>)
      ensures v == if k in entries then Some(entries[k]) else None
    {
      v := if k in entries then Some(entries[k]) else None;
    }

    method Set(k: K, v: V)
      requires Valid()
      modifies this
      ensures Valid() && View() == PutBounded(old(View()), max, k, v)
    {
      PutBoundedOk(View(), max, k, v);
      if k !in entries && |order| >= max {
        var oldest := order[0];
        DropFirst(order);
        order, entries := order[1..], entries - {oldest};
      }
      if k !in entries {
        order := order + [k];
      }
      entries := entries[k := v];
    }

    method Remove(k: K)
      requires Valid()
      modifies this
      ensures Valid() && View() == Delete(old(View()), k)
    {
      DeleteOk(View(), k);
      WithoutMembers(order, {k});
      order, entries := Without(order, {k}), entries - {k};
    }
  }

  // ------------------------------------------------------------- over whole histories

  datatype Op<K, V> = SetOp(key: K, value: V) | DeleteOp(key: K)

  function Run<K(==), V>(max: nat, ops: seq<Op<K, V>>): Ordered<K, V> {
    if ops == [] then Ordered([], map[])
    else
      var before, op := Run(max, ops[..|ops| - 1]), ops[|ops| - 1];
      if op.SetOp? then PutBounded(before, max, op.key, op.value) else Delete(before, op.key)
  }

  /** The same history on a map without a limit. */
  function Plain<K(==), V>(ops: seq<Op<K, V>>): map<K, V> {
    if ops == [] then map[]
    else
      var before, op := Plain(ops[..|ops| - 1]), ops[|ops| - 1];
      if op.SetOp? then before[op.key := op.value] else before - {op.key}
  }

  /** The size never exceeds the limit, and every hit is the last value set for that key. */
  lemma {:induction false} HitsAreLastWritten<K(!new), V>(max: nat, ops: seq<Op<K, V>>)
    requires max > 0
    ensures var r := Run(max, ops);
            && OrderedOk(r) && |r.entries| <= max
            && forall k :: k in r.entries ==> k in Plain(ops) && Plain(ops)[k] == r.entries[k]
  {
    if ops != [] {
      var before, op := Run(max, ops[..|ops| - 1]), ops[|ops| - 1];
      HitsAreLastWritten(max, ops[..|ops| - 1]);
      DistinctSize(before);
      if op.SetOp? {
        PutBoundedOk(before, max, op.key, op.value);
      } else {
        DeleteOk(before, op.key);
        WithoutMembers(before.order, {op.key});
      }
      DistinctSize(Run(max, ops));
    }
  }

  /** While at most `max` keys are live the limit is invisible. */
  lemma {:induction false} ActsLikePlain<K(!new), V>(max: nat, ops: seq<Op<K, V>>)
    requires max > 0 && forall i :: 0 <= i <= |ops| ==> |Plain(ops[..i])| <= max
    ensures Run(max, ops).entries == Plain(ops)
  {
    if ops != [] {
      var before, op := ops[..|ops| - 1], ops[|ops| - 1];
      assert forall i :: 0 <= i <= |before| ==> before[..i] == ops[..i];
      ActsLikePlain(max, before);
      HitsAreLastWritten(max, before);
      DistinctSize(Run(max, before));
      if op.SetOp? && op.key !in Plain(before) {
        var after := Plain(before)[op.key := op.value];
        assert ops[..|ops|] == ops;
        assert after.Keys == Plain(before).Keys + {op.key};
        assert |after.Keys| == |Plain(before).Keys| + 1;
      }
    }
  }

  /**
   * What one `set` does after any history: an existing key keeps its place, a new key goes last, and
   * only at the limit is one key lost, the first, with every other entry intact.
   */
  lemma {:induction false} SetDropsOnlyOldest<K(!new), V>(max: nat, ops: seq<Op<K, V>>, k: K, v: V)
    requires max > 0
    ensures var o, r := Run(max, ops), Run(max, ops + [SetOp(k, v)]);
            if k in o.entries then r.order == o.order && r.entries == o.entries[k := v]
            else if |o.order| < max then r.order == o.order + [k] && r.entries == o.entries[k := v]
            else |o.order| == max && r.order == o.order[1..] + [k] && r.entries == (o.entries - {o.order[0]})[k := v]
  {
    var o := Run(max, ops);
    assert (ops + [SetOp(k, v)])[..|ops|] == ops;
    HitsAreLastWritten(max, ops);
    DistinctSize(o);
    if k !in o.entries && |o.order| >= max {
      DropFirst(o.order);
    }
  }

  /** When a present key was last inserted, as a position in the history. */
  function InsertedAt<K(==), V>(max: nat, ops: seq<Op<K, V>>, k: K): nat {
    if ops == [] then 0
    else
      var n := |ops| - 1;
      if ops[n].SetOp? && ops[n].key == k && k !in Run(max, ops[..n]).entries then n
      else InsertedAt(max, ops[..n], k)
  }

  /** Keys stand in the order they were inserted in. */
  predicate InInsertionOrder<K(==), V>(max: nat, ops: seq<Op<K, V>>, s: seq<K>) {
    && (forall i, j :: 0 <= i < j < |s| ==> InsertedAt(max, ops, s[i]) < InsertedAt(max, ops, s[j]))
    && (forall i :: 0 <= i < |s| ==> InsertedAt(max, ops, s[i]) < |ops|)
  }

  /** Where each kept key stood before some were dropped. */
  lemma {:induction false} WithoutKeepsOrder<K(!new)>(s: seq<K>, gone: set<K>) returns (from: seq<nat>)
    ensures |from| == |Without(s, gone)|
    ensures forall i :: 0 <= i < |from| ==> from[i] < |s| && s[from[i]] == Without(s, gone)[i] && s[from[i]] !in gone
    ensures forall i, j :: 0 <= i < j < |from| ==> from[i] < from[j]
  {
    if s == [] {
      from := [];
    } else {
      var rest := WithoutKeepsOrder(s[1..], gone);
      var shifted := seq(|rest|, i requires 0 <= i < |rest| => rest[i] + 1);
      from := if s[0] in gone then shifted else [0] + shifted;
    }
  }

  function Dropped<K(==), V>(o: Ordered<K, V>, max: nat, op: Op<K, V>): set<K> {
    if op.DeleteOp? then {op.key}
    else if op.key !in o.entries && |o.order| >= max && o.order != [] then {o.order[0]}
    else {}
  }

  /** A step drops some keys in place and appends at most the one it inserts. */
  lemma {:induction false} StepOrder<K(!new), V>(o: Ordered<K, V>, max: nat, op: Op<K, V>)
    requires OrderedOk(o)
    ensures var kept := Without(o.order, Dropped(o, max, op));
            var r := if op.SetOp? then PutBounded(o, max, op.key, op.value) else Delete(o, op.key);
            r.order == if op.SetOp? && op.key !in o.entries then kept + [op.key] else kept
  {
    WithoutNothing(o.order, {});
  }

  lemma {:induction false} KeptInOrder<K(!new), V>(max: nat, ops: seq<Op<K, V>>, kept: seq<K>)
    requires ops != [] && max > 0
    requires var n := |ops| - 1; var o := Run(max, ops[..n]);
             && OrderedOk(o) && InInsertionOrder(max, ops[..n], o.order)
             && kept == Without(o.order, Dropped(o, max, ops[n]))
    ensures InInsertionOrder(max, ops, kept)
    ensures forall i :: 0 <= i < |kept| ==> InsertedAt(max, ops, kept[i]) < |ops| - 1
  {
    var n := |ops| - 1;
    var o := Run(max, ops[..n]);
    var from := WithoutKeepsOrder(o.order, Dropped(o, max, ops[n]));
    forall i | 0 <= i < |kept|
      ensures InsertedAt(max, ops, kept[i]) == InsertedAt(max, ops[..n], o.order[from[i]])
    {
      assert kept[i] == o.order[from[i]] && kept[i] in o.entries;
    }
  }

  /** Keys stand in insertion order, so the one evicted next is the one inserted longest ago. */
  lemma {:induction false} EvictionIsFifo<K(!new), V>(max: nat, ops: seq<Op<K, V>>)
    requires max > 0
    ensures InInsertionOrder(max, ops, Run(max, ops).order)
  {
    if ops != [] {
      var n := |ops| - 1;
      var o, op := Run(max, ops[..n]), ops[n];
      EvictionIsFifo(max, ops[..n]);
      HitsAreLastWritten(max, ops[..n]);
      var kept := Without(o.order, Dropped(o, max, op));
      KeptInOrder(max, ops, kept);
      StepOrder(o, max, op);
      if op.SetOp? && op.key !in o.entries {
        assert InsertedAt(max, ops, op.key) == n;
      }
    }
  }
}
