/**
  * Left folds over sequences (JavaScript's `reduce`, Python's `sum`) and
  * grouping by a key (the `forEach` loops that fill a dictionary of totals).
  * Every fold is defined on the prefix, the way `reduce` walks a list.
  */
module Folds {

  /** `s.reduce((acc, x) => acc + f(x), 0)` */
  function SumOf<T>(s: seq<T>, f: T -> int): int
  {
    if s == [] then 0 else SumOf(s[..|s| - 1], f) + f(s[|s| - 1])
  }

  lemma {:induction false} SumOfAppend<T>(a: seq<T>, b: seq<T>, f: T -> int)
    ensures SumOf(a + b, f) == SumOf(a, f) + SumOf(b, f)
    decreases |b|
  {
    if b == [] {
      assert a + b == a;
    } else {
      var b' := b[..|b| - 1];
      assert (a + b)[..|a + b| - 1] == a + b';
      SumOfAppend(a, b', f);
    }
  }

  /** Taking one element out of a sum. */
  lemma {:induction false} SumOfRemove<T>(b: seq<T>, i: nat, f: T -> int)
    requires i < |b|
    ensures SumOf(b, f) == SumOf(b[..i] + b[i + 1..], f) + f(b[i])
  {
    var p, x, q := b[..i], b[i], b[i + 1..];
    assert b == (p + [x]) + q;
    assert (p + [x])[..|p|] == p;
    assert SumOf(p + [x], f) == SumOf(p, f) + f(x);
    SumOfAppend(p + [x], q, f);
    SumOfAppend(p, q, f);
  }

  lemma MultisetRemove<T>(b: seq<T>, i: nat)
    requires i < |b|
    ensures multiset(b[..i] + b[i + 1..]) == multiset(b) - multiset{b[i]}
  {
    assert b == b[..i] + [b[i]] + b[i + 1..];
    assert multiset(b) == multiset(b[..i]) + multiset{b[i]} + multiset(b[i + 1..]);
  }

  /** A fold with `+` does not depend on the order of the list. */
  lemma {:induction false} SumOfPermutation<T>(a: seq<T>, b: seq<T>, f: T -> int)
    requires multiset(a) == multiset(b)
    ensures SumOf(a, f) == SumOf(b, f)
    decreases |a|
  {
    if a != [] {
      var x := a[|a| - 1];
      var a' := a[..|a| - 1];
      MultisetRemove(a, |a| - 1);
      assert a[..|a| - 1] + a[|a|..] == a';
      assert x in multiset(b);
      var i :| 0 <= i < |b| && b[i] == x;
      MultisetRemove(b, i);
      SumOfPermutation(a', b[..i] + b[i + 1..], f);
      SumOfRemove(b, i, f);
    }
  }

  /** The keys of `s` in order of first appearance: `Object.keys` of a dictionary filled by `forEach`. */
  function FirstSeen<T, K(==)>(s: seq<T>, key: T -> K): seq<K>
  {
    if s == [] then []
    else
      var keys := FirstSeen(s[..|s| - 1], key);
      if key(s[|s| - 1]) in keys then keys else keys + [key(s[|s| - 1])]
  }

  /** The sum of `val` over the elements of `s` whose key is `k`. */
  function GroupSum<T, K(==)>(s: seq<T>, key: T -> K, val: T -> int, k: K): int
  {
    if s == [] then 0
    else GroupSum(s[..|s| - 1], key, val, k) + (if key(s[|s| - 1]) == k then val(s[|s| - 1]) else 0)
  }

  /** The sum of the group sums of the listed keys. */
  function GroupTotals<T, K(==)>(keys: seq<K>, s: seq<T>, key: T -> K, val: T -> int): int
  {
    if keys == [] then 0
    else GroupTotals(keys[..|keys| - 1], s, key, val) + GroupSum(s, key, val, keys[|keys| - 1])
  }

  ghost predicate Distinct<K>(keys: seq<K>)
  {
    forall i, j :: 0 <= i < j < |keys| ==> keys[i] != keys[j]
  }

  /** One key per distinct key of `s`: no repeats, and exactly the keys that occur. */
  lemma {:induction false} FirstSeenKeys<T, K>(s: seq<T>, key: T -> K)
    ensures Distinct(FirstSeen(s, key))
    ensures forall k :: k in FirstSeen(s, key) ==> exists i :: 0 <= i < |s| && key(s[i]) == k
    ensures forall i :: 0 <= i < |s| ==> key(s[i]) in FirstSeen(s, key)
  {
    if s != [] {
      var p := s[..|s| - 1];
      FirstSeenKeys(p, key);
      forall i | 0 <= i < |s|
        ensures key(s[i]) in FirstSeen(s, key)
      {
        if i < |s| - 1 { assert key(p[i]) == key(s[i]); }
      }
      forall k | k in FirstSeen(s, key)
        ensures exists i :: 0 <= i < |s| && key(s[i]) == k
      {
        if k in FirstSeen(p, key) {
          assert exists i :: 0 <= i < |p| && key(p[i]) == k;
          var i :| 0 <= i < |p| && key(p[i]) == k;
          assert key(s[i]) == k;
        } else {
          assert key(s[|s| - 1]) == k;
        }
      }
    }
  }

  /** Appending one element adds its value to its own key's group only. */
  lemma GroupSumSnoc<T, K>(p: seq<T>, t: T, key: T -> K, val: T -> int, k: K)
    ensures GroupSum(p + [t], key, val, k) == GroupSum(p, key, val, k) + (if key(t) == k then val(t) else 0)
  {
    assert (p + [t])[..|p|] == p;
  }

  /**
    * A dictionary of running totals after the elements of `p`: its keys are
    * `keys`, and each holds its group's sum.
    */
  ghost predicate Tallied<T, K(!new)>(keys: seq<K>, totals: map<K, int>, p: seq<T>, key: T -> K, val: T -> int)
  {
    && (forall k :: k in totals <==> k in keys)
    && (forall k :: k in totals ==> totals[k] == GroupSum(p, key, val, k))
  }

  /** Adding an element's value to its key's existing total keeps the dictionary tallied. */
  lemma {:induction false} TallyAdd<T, K(!new)>(keys: seq<K>, totals: map<K, int>, p: seq<T>, t: T, key: T -> K, val: T -> int)
    requires Tallied(keys, totals, p, key, val)
    requires key(t) in totals
    ensures Tallied(keys, totals[key(t) := totals[key(t)] + val(t)], p + [t], key, val)
  {
    forall k ensures GroupSum(p + [t], key, val, k) == GroupSum(p, key, val, k) + (if key(t) == k then val(t) else 0) {
      GroupSumSnoc(p, t, key, val, k);
    }
  }

  /** A key seen for the first time starts at the element's value and is appended to the key list. */
  lemma {:induction false} TallyOpen<T, K(!new)>(keys: seq<K>, totals: map<K, int>, p: seq<T>, t: T, key: T -> K, val: T -> int)
    requires keys == FirstSeen(p, key)
    requires Tallied(keys, totals, p, key, val)
    requires key(t) !in totals
    ensures Tallied(keys + [key(t)], totals[key(t) := val(t)], p + [t], key, val)
  {
    FirstSeenKeys(p, key);
    GroupSumAbsent(p, key, val, key(t));
    forall k ensures GroupSum(p + [t], key, val, k) == GroupSum(p, key, val, k) + (if key(t) == k then val(t) else 0) {
      GroupSumSnoc(p, t, key, val, k);
    }
  }

  /** The key list of the extended prefix, as the two tally steps build it. */
  lemma FirstSeenSnoc<T, K>(p: seq<T>, t: T, key: T -> K)
    ensures FirstSeen(p + [t], key) == if key(t) in FirstSeen(p, key) then FirstSeen(p, key) else FirstSeen(p, key) + [key(t)]
  {
    assert (p + [t])[..|p|] == p;
  }

  /** A key that never occurs has group sum 0. */
  lemma {:induction false} GroupSumAbsent<T, K>(s: seq<T>, key: T -> K, val: T -> int, k: K)
    requires forall i :: 0 <= i < |s| ==> key(s[i]) != k
    ensures GroupSum(s, key, val, k) == 0
  {
    if s != [] {
      GroupSumAbsent(s[..|s| - 1], key, val, k);
    }
  }

  /** Appending one element adds its value to exactly one listed group when the keys are distinct. */
  lemma {:induction false} GroupTotalsStep<T, K>(keys: seq<K>, p: seq<T>, t: T, key: T -> K, val: T -> int)
    requires Distinct(keys)
    ensures GroupTotals(keys, p + [t], key, val)
         == GroupTotals(keys, p, key, val) + (if key(t) in keys then val(t) else 0)
  {
    var s := p + [t];
    assert s[..|s| - 1] == p;
    if keys != [] {
      var ks := keys[..|keys| - 1];
      GroupTotalsStep(ks, p, t, key, val);
      assert key(t) in keys <==> key(t) in ks || key(t) == keys[|keys| - 1];
      if key(t) == keys[|keys| - 1] {
        assert key(t) !in ks by {
          forall j | 0 <= j < |ks| ensures ks[j] != key(t) { assert keys[j] == ks[j]; }
        }
      }
    }
  }

  /** Summing the per-key totals over all distinct keys gives the grand total. */
  lemma {:induction false} GroupTotalsAll<T, K>(s: seq<T>, key: T -> K, val: T -> int)
    ensures GroupTotals(FirstSeen(s, key), s, key, val) == SumOf(s, val)
  {
    if s != [] {
      var p := s[..|s| - 1];
      var t := s[|s| - 1];
      assert s == p + [t];
      var keys := FirstSeen(p, key);
      GroupTotalsAll(p, key, val);
      FirstSeenKeys(p, key);
      GroupTotalsStep(keys, p, t, key, val);
      if key(t) !in keys {
        assert FirstSeen(s, key) == keys + [key(t)];
        assert (keys + [key(t)])[..|keys|] == keys;
        GroupSumAbsent(p, key, val, key(t));
      }
    }
  }
}
