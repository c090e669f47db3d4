/**
  Python's `sorted` as the client uses it: on the items of a dict, by key
  (for the cache key), and on a set of strings (for the CSV header).
  Strings compare with `Text.StrLt`, Python's code-point order.
 */
module Sorting {
  import opened Json
  import opened Text

  /** Strictly increasing keys; only possible when the keys are distinct. */
  predicate SortedByKey(p: Pairs)
  {
    forall i, j :: 0 <= i < j < |p| ==> StrLt(p[i].0, p[j].0)
  }

  /** Inserts `kv` before the first pair whose key is not below its own. */
  function InsertByKey(kv: (string, Value), p: Pairs): (r: Pairs)
    ensures multiset(r) == multiset(p) + multiset{kv}
  {
    if |p| == 0 then [kv]
    else if !StrLt(p[0].0, kv.0) then
      assert p == [p[0]] + p[1..];
      [kv] + p
    else
      assert p == [p[0]] + p[1..];
      [p[0]] + InsertByKey(kv, p[1..])
  }

  /** Inserting a pair with a new key into a key-sorted list keeps it key-sorted. */
  lemma {:induction false} InsertByKeySorted(kv: (string, Value), p: Pairs)
    requires SortedByKey(p)
    requires forall x :: x in p ==> x.0 != kv.0
    ensures SortedByKey(InsertByKey(kv, p))
  {
    var r := InsertByKey(kv, p);
    if |p| == 0 {
    } else if !StrLt(p[0].0, kv.0) {
      assert p[0] in p;
      StrLtTotal(kv.0, p[0].0);
      forall j | 1 < j < |r| ensures StrLt(kv.0, r[j].0) {
        StrLtTransitive(kv.0, p[0].0, r[j].0);
      }
    } else {
      var t := InsertByKey(kv, p[1..]);
      assert SortedByKey(p[1..]);
      InsertByKeySorted(kv, p[1..]);
      assert r == [p[0]] + t;
      forall j | 0 < j < |r| ensures StrLt(p[0].0, r[j].0) {
        assert r[j] in multiset(t);
        if r[j] != kv {
          assert r[j] in multiset(p[1..]);
          var k :| 0 <= k < |p[1..]| && p[1..][k] == r[j];
          assert p[k + 1] == r[j];
        }
      }
    }
  }

  /** `sorted(d.items(), key=lambda kv: kv[0])`: a stable insertion sort. */
  function SortByKey(p: Pairs): (r: Pairs)
    ensures multiset(r) == multiset(p)
  {
    if |p| == 0 then []
    else
      assert p == [p[0]] + p[1..];
      InsertByKey(p[0], SortByKey(p[1..]))
  }

  /** The items of a dict come out strictly increasing by key. */
  lemma {:induction false} SortByKeySorted(p: Pairs)
    requires DistinctKeys(p)
    ensures SortedByKey(SortByKey(p))
  {
    if |p| > 0 {
      var t := SortByKey(p[1..]);
      assert DistinctKeys(p[1..]) by {
        forall i, j | 0 <= i < j < |p[1..]| ensures p[1..][i].0 != p[1..][j].0 {
          assert p[1..][i] == p[i + 1] && p[1..][j] == p[j + 1];
        }
      }
      SortByKeySorted(p[1..]);
      forall x | x in t ensures x.0 != p[0].0 {
        assert x in multiset(p[1..]);
        var k :| 0 <= k < |p[1..]| && p[1..][k] == x;
        assert p[k + 1] == x;
      }
      InsertByKeySorted(p[0], t);
    }
  }

  /** Two lists of pairs sorted strictly by key that hold the same pairs are equal. */
  lemma {:induction false} SortedByKeyUnique(a: Pairs, b: Pairs)
    requires SortedByKey(a) && SortedByKey(b)
    requires multiset(a) == multiset(b)
    ensures a == b
  {
    assert |a| > 0 <==> |b| > 0 by {
      if |a| > 0 { assert a[0] in multiset(b); }
      if |b| > 0 { assert b[0] in multiset(a); }
    }
    if |a| > 0 {
      SortedHeadsAgree(a, b);
      PairsTail(a);
      PairsTail(b);
      assert SortedByKey(a[1..]) && SortedByKey(b[1..]);
      assert multiset(a[1..]) == multiset(b[1..]);
      SortedByKeyUnique(a[1..], b[1..]);
    }
  }

  lemma SortedHeadsAgree(a: Pairs, b: Pairs)
    requires SortedByKey(a) && SortedByKey(b)
    requires multiset(a) == multiset(b) && |a| > 0 && |b| > 0
    ensures a[0] == b[0]
  {
    assert a[0] in multiset(b) && b[0] in multiset(a);
    if a[0] != b[0] {
      var i :| 0 <= i < |a| && a[i] == b[0];
      var j :| 0 <= j < |b| && b[j] == a[0];
      assert StrLt(a[0].0, b[0].0) && StrLt(b[0].0, a[0].0);
      StrLtAsymmetric(a[0].0, b[0].0);
    }
  }

  lemma PairsTail(a: Pairs)
    requires |a| > 0
    ensures a == [a[0]] + a[1..]
    ensures multiset(a) == multiset{a[0]} + multiset(a[1..])
    ensures multiset(a[1..]) == multiset(a) - multiset{a[0]}
  {
    assert a == [a[0]] + a[1..];
  }

  /** Sorting a dict's items forgets the insertion order and keeps the items. */
  lemma SortByKeyDeterminedByItems(p: Pairs, q: Pairs)
    requires DistinctKeys(p) && DistinctKeys(q)
    ensures SortByKey(p) == SortByKey(q) <==> multiset(p) == multiset(q)
  {
    SortByKeySorted(p);
    SortByKeySorted(q);
    if multiset(p) == multiset(q) {
      SortedByKeyUnique(SortByKey(p), SortByKey(q));
    }
  }

  /** Strictly increasing strings. */
  predicate StrictlySorted(s: seq<string>)
  {
    forall i, j :: 0 <= i < j < |s| ==> StrLt(s[i], s[j])
  }

  /** Adds `x` to a sorted list of distinct strings unless it is already there. */
  function InsertString(x: string, s: seq<string>): (r: seq<string>)
    ensures forall y :: y in r <==> y == x || y in s
    ensures StrictlySorted(s) ==> StrictlySorted(r)
  {
    if |s| == 0 then [x]
    else if x == s[0] then s
    else if StrLt(x, s[0]) then
      var r := [x] + s;
      assert StrictlySorted(s) ==> StrictlySorted(r) by {
        if StrictlySorted(s) {
          forall j | 1 < j < |r| ensures StrLt(x, r[j]) {
            StrLtTransitive(x, s[0], r[j]);
          }
        }
      }
      r
    else
      var t := InsertString(x, s[1..]);
      var r := [s[0]] + t;
      assert forall y :: y in s <==> y == s[0] || y in s[1..] by {
        assert s == [s[0]] + s[1..];
      }
      assert StrictlySorted(s) ==> StrictlySorted(r) by {
        if StrictlySorted(s) {
          StrLtTotal(x, s[0]);
          assert StrictlySorted(s[1..]);
          forall j | 0 < j < |r| ensures StrLt(s[0], r[j]) {
            assert r[j] in t;
            if r[j] != x {
              var k :| 1 <= k < |s| && s[k] == r[j];
            }
          }
        }
      }
      r
  }

  /** `sorted(set(ks))`: the distinct strings of `ks` in increasing order. */
  function SortedDistinct(ks: seq<string>): (r: seq<string>)
    ensures StrictlySorted(r)
    ensures forall y :: y in r <==> y in ks
  {
    if |ks| == 0 then []
    else
      assert forall y :: y in ks <==> y == ks[0] || y in ks[1..] by {
        assert ks == [ks[0]] + ks[1..];
      }
      InsertString(ks[0], SortedDistinct(ks[1..]))
  }

  /** A strictly sorted list is determined by the strings it holds. */
  lemma {:induction false} StrictlySortedUnique(a: seq<string>, b: seq<string>)
    requires StrictlySorted(a) && StrictlySorted(b)
    requires forall y :: y in a <==> y in b
    ensures a == b
  {
    assert |a| > 0 <==> |b| > 0 by {
      if |a| > 0 { assert a[0] in b; }
      if |b| > 0 { assert b[0] in a; }
    }
    if |a| > 0 {
      assert a[0] in b && b[0] in a;
      if a[0] != b[0] {
        var i :| 0 <= i < |a| && a[i] == b[0];
        var j :| 0 <= j < |b| && b[j] == a[0];
        assert StrLt(a[0], b[0]);
        assert StrLt(b[0], a[0]);
        StrLtAsymmetric(a[0], b[0]);
      }
      forall y ensures y in a[1..] <==> y in b[1..] {
        if y in a[1..] {
          var k :| 0 <= k < |a[1..]| && a[1..][k] == y;
          assert a[k + 1] == y && StrLt(a[0], y);
          StrLtIrreflexive(y);
          TailMember(b, y);
        }
        if y in b[1..] {
          var k :| 0 <= k < |b[1..]| && b[1..][k] == y;
          assert b[k + 1] == y && StrLt(b[0], y);
          StrLtIrreflexive(y);
          TailMember(a, y);
        }
      }
      StrictlySortedUnique(a[1..], b[1..]);
    }
  }

  lemma TailMember(s: seq<string>, y: string)
    requires |s| > 0 && y in s && y != s[0]
    ensures y in s[1..]
  {
    assert s == [s[0]] + s[1..];
  }
}
