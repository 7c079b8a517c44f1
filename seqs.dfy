/**
 * The JavaScript array operations the application relies on, over Dafny
 * sequences: `filter`, the stable comparator `sort` (by a numeric key),
 * `join` with a separator and `reverse` on a copy.
 */
module Seqs {

  /** `s.filter(p)`, written as a left fold so that it follows the array from front to back. */
  function Filter<T>(s: seq<T>, p: T -> bool): (r: seq<T>)
    ensures |r| <= |s|
  {
    if s == [] then [] else Filter(s[..|s| - 1], p) + (if p(s[|s| - 1]) then [s[|s| - 1]] else [])
  }

  lemma {:induction false} FilterMembership<T>(s: seq<T>, p: T -> bool, x: T)
    ensures x in Filter(s, p) <==> x in s && p(x)
  {
    if s != [] {
      var init := s[..|s| - 1];
      FilterMembership(init, p, x);
      assert s == init + [s[|s| - 1]];
    }
  }

  lemma {:induction false} FilterAllSatisfy<T>(s: seq<T>, p: T -> bool)
    ensures forall i :: 0 <= i < |Filter(s, p)| ==> p(Filter(s, p)[i])
  {
    forall i | 0 <= i < |Filter(s, p)| ensures p(Filter(s, p)[i]) {
      FilterMembership(s, p, Filter(s, p)[i]);
    }
  }

  lemma {:induction false} FilterEmpty<T>(s: seq<T>, p: T -> bool)
    ensures Filter(s, p) == [] <==> forall i :: 0 <= i < |s| ==> !p(s[i])
  {
    if Filter(s, p) == [] {
      forall i | 0 <= i < |s| ensures !p(s[i]) {
        FilterMembership(s, p, s[i]);
      }
    } else {
      FilterMembership(s, p, Filter(s, p)[0]);
    }
  }

  lemma {:induction false} FilterConcat<T>(a: seq<T>, b: seq<T>, p: T -> bool)
    ensures Filter(a + b, p) == Filter(a, p) + Filter(b, p)
    decreases |b|
  {
    if b == [] {
      assert a + b == a;
    } else {
      var ab := a + b;
      assert ab[..|ab| - 1] == a + b[..|b| - 1];
      assert ab[|ab| - 1] == b[|b| - 1];
      FilterConcat(a, b[..|b| - 1], p);
    }
  }

  lemma {:induction false} FilterKeepsAll<T>(s: seq<T>, p: T -> bool)
    requires forall i :: 0 <= i < |s| ==> p(s[i])
    ensures Filter(s, p) == s
  {
    if s != [] {
      FilterKeepsAll(s[..|s| - 1], p);
    }
  }

  /** The keys of `s` are in non-decreasing order. */
  ghost predicate SortedBy<T>(s: seq<T>, key: T -> real)
  {
    forall i, j :: 0 <= i < j < |s| ==> key(s[i]) <= key(s[j])
  }

  /** Inserts `x` before the first element whose key is not smaller than its own. */
  function Insert<T>(x: T, s: seq<T>, key: T -> real): (r: seq<T>)
    ensures |r| == |s| + 1
  {
    if s == [] || key(x) <= key(s[0]) then [x] + s else [s[0]] + Insert(x, s[1..], key)
  }

  /** `s.sort((a, b) => key(a) - key(b))`: a stable sort, ascending by key. */
  function SortBy<T>(s: seq<T>, key: T -> real): (r: seq<T>)
    ensures |r| == |s|
  {
    if s == [] then [] else Insert(s[0], SortBy(s[1..], key), key)
  }

  /** The position at which `Insert` places `x`. */
  function InsertIndex<T>(x: T, s: seq<T>, key: T -> real): (k: nat)
    ensures k <= |s|
  {
    if s == [] || key(x) <= key(s[0]) then 0 else 1 + InsertIndex(x, s[1..], key)
  }

  lemma {:induction false} InsertSplits<T>(x: T, s: seq<T>, key: T -> real)
    ensures Insert(x, s, key) == s[..InsertIndex(x, s, key)] + [x] + s[InsertIndex(x, s, key)..]
  {
    if !(s == [] || key(x) <= key(s[0])) {
      InsertSplits(x, s[1..], key);
      var k := InsertIndex(x, s[1..], key);
      assert s[..k + 1] == [s[0]] + s[1..][..k];
      assert s[k + 1..] == s[1..][k..];
    }
  }

  lemma {:induction false} InsertMultiset<T>(x: T, s: seq<T>, key: T -> real)
    ensures multiset(Insert(x, s, key)) == multiset(s) + multiset{x}
  {
    if !(s == [] || key(x) <= key(s[0])) {
      InsertMultiset(x, s[1..], key);
      assert s == [s[0]] + s[1..];
    }
  }

  lemma {:induction false} InsertSorted<T>(x: T, s: seq<T>, key: T -> real)
    requires SortedBy(s, key)
    ensures SortedBy(Insert(x, s, key), key)
  {
    if !(s == [] || key(x) <= key(s[0])) {
      var t := Insert(x, s[1..], key);
      InsertSorted(x, s[1..], key);
      InsertMultiset(x, s[1..], key);
      forall i | 0 <= i < |t| ensures key(s[0]) <= key(t[i]) {
        assert t[i] in multiset(t);
        if t[i] != x {
          assert t[i] in multiset(s[1..]);
          var j :| 0 <= j < |s[1..]| && s[1..][j] == t[i];
          assert s[j + 1] == t[i];
        }
      }
      assert Insert(x, s, key) == [s[0]] + t;
    }
  }

  /** Sorting yields a sorted permutation of its input. */
  lemma {:induction false} SortBySpec<T>(s: seq<T>, key: T -> real)
    ensures SortedBy(SortBy(s, key), key)
    ensures multiset(SortBy(s, key)) == multiset(s)
  {
    if s != [] {
      SortBySpec(s[1..], key);
      InsertSorted(s[0], SortBy(s[1..], key), key);
      InsertMultiset(s[0], SortBy(s[1..], key), key);
      assert s == [s[0]] + s[1..];
    }
  }

  lemma {:induction false} SortByMembership<T>(s: seq<T>, key: T -> real, x: T)
    ensures x in SortBy(s, key) <==> x in s
  {
    SortBySpec(s, key);
    assert x in SortBy(s, key) <==> x in multiset(SortBy(s, key));
  }

  /** The first position of a smallest key: the element a stable ascending sort puts first. */
  function FirstMinIndex<T>(s: seq<T>, key: T -> real): (k: nat)
    requires s != []
    ensures k < |s|
    ensures forall i :: 0 <= i < |s| ==> key(s[k]) <= key(s[i])
    ensures forall i :: 0 <= i < k ==> key(s[i]) > key(s[k])
  {
    if |s| == 1 then 0
    else
      var j := 1 + FirstMinIndex(s[1..], key);
      if key(s[0]) <= key(s[j]) then 0 else j
  }

  /** Stability at the head: among equal smallest keys, the earliest element comes first. */
  lemma {:induction false} SortByHead<T>(s: seq<T>, key: T -> real)
    requires s != []
    ensures SortBy(s, key)[0] == s[FirstMinIndex(s, key)]
  {
    if |s| > 1 {
      SortByHead(s[1..], key);
    }
  }

  /** Sorting keeps elements whose names are pairwise different pairwise different. */
  lemma {:induction false} SortByDistinct<T, K>(s: seq<T>, key: T -> real, name: T -> K)
    requires forall i, j :: 0 <= i < j < |s| ==> name(s[i]) != name(s[j])
    ensures forall i, j :: 0 <= i < j < |SortBy(s, key)| ==> name(SortBy(s, key)[i]) != name(SortBy(s, key)[j])
  {
    if s != [] {
      var tail := SortBy(s[1..], key);
      SortByDistinct(s[1..], key, name);
      forall y | y in tail ensures name(y) != name(s[0]) {
        SortByMembership(s[1..], key, y);
        var j :| 0 <= j < |s[1..]| && s[1..][j] == y;
        assert s[j + 1] == y;
      }
      InsertSplits(s[0], tail, key);
      var k := InsertIndex(s[0], tail, key);
      var r := SortBy(s, key);
      forall i, j | 0 <= i < j < |r| ensures name(r[i]) != name(r[j]) {
        if i < k && j < k {
          assert r[i] == tail[i] && r[j] == tail[j];
        } else if i < k && j == k {
          assert r[i] == tail[i] && r[j] == s[0];
          assert tail[i] in tail;
        } else if i < k {
          assert r[i] == tail[i] && r[j] == tail[j - 1];
        } else if i == k {
          assert r[i] == s[0] && r[j] == tail[j - 1];
          assert tail[j - 1] in tail;
        } else {
          assert r[i] == tail[i - 1] && r[j] == tail[j - 1];
        }
      }
    }
  }

  /** Sum of `f` over a sequence. */
  function SumBy<T>(s: seq<T>, f: T -> real): real
  {
    if s == [] then 0.0 else SumBy(s[..|s| - 1], f) + f(s[|s| - 1])
  }

  lemma {:induction false} SumByConcat<T>(a: seq<T>, b: seq<T>, f: T -> real)
    ensures SumBy(a + b, f) == SumBy(a, f) + SumBy(b, f)
    decreases |b|
  {
    if b == [] {
      assert a + b == a;
    } else {
      var ab := a + b;
      assert ab[..|ab| - 1] == a + b[..|b| - 1];
      SumByConcat(a, b[..|b| - 1], f);
    }
  }

  lemma {:induction false} SumByCons<T>(x: T, s: seq<T>, f: T -> real)
    ensures SumBy([x] + s, f) == f(x) + SumBy(s, f)
  {
    SumByConcat([x], s, f);
    assert [x][..0] == [];
  }

  lemma {:induction false} SumByUpdate<T>(s: seq<T>, i: nat, x: T, f: T -> real)
    requires i < |s|
    ensures SumBy(s[i := x], f) == SumBy(s, f) - f(s[i]) + f(x)
  {
    var a, b := s[..i], s[i + 1..];
    assert s == a + [s[i]] + b;
    assert s[i := x] == a + [x] + b;
    SumByConcat(a + [s[i]], b, f);
    SumByConcat(a + [x], b, f);
    SumByConcat(a, [s[i]], f);
    SumByConcat(a, [x], f);
    assert [s[i]][..0] == [] && [x][..0] == [];
  }

  /** Sorting does not change a sum. */
  lemma {:induction false} SortBySum<T>(s: seq<T>, key: T -> real, f: T -> real)
    ensures SumBy(SortBy(s, key), f) == SumBy(s, f)
  {
    if s != [] {
      var tail := SortBy(s[1..], key);
      SortBySum(s[1..], key, f);
      InsertSplits(s[0], tail, key);
      var k := InsertIndex(s[0], tail, key);
      assert tail == tail[..k] + tail[k..];
      SumByConcat(tail[..k], tail[k..], f);
      SumByConcat(tail[..k] + [s[0]], tail[k..], f);
      SumByConcat(tail[..k], [s[0]], f);
      assert [s[0]][..0] == [];
      SumByCons(s[0], s[1..], f);
      assert s == [s[0]] + s[1..];
    }
  }

  /** `s.map(f)`. */
  function Map<T, U>(s: seq<T>, f: T -> U): (r: seq<U>)
    ensures |r| == |s|
  {
    if s == [] then [] else Map(s[..|s| - 1], f) + [f(s[|s| - 1])]
  }

  lemma {:induction false} MapConcat<T, U>(a: seq<T>, b: seq<T>, f: T -> U)
    ensures Map(a + b, f) == Map(a, f) + Map(b, f)
    decreases |b|
  {
    if b == [] {
      assert a + b == a;
    } else {
      var ab := a + b;
      assert ab[..|ab| - 1] == a + b[..|b| - 1];
      MapConcat(a, b[..|b| - 1], f);
    }
  }

  lemma {:induction false} MapAt<T, U>(s: seq<T>, f: T -> U, i: nat)
    requires i < |s|
    ensures Map(s, f)[i] == f(s[i])
    decreases |s|
  {
    if i < |s| - 1 {
      MapAt(s[..|s| - 1], f, i);
    }
  }

  /** `parts.join(sep)`. */
  function Join<T>(parts: seq<seq<T>>, sep: seq<T>): seq<T>
  {
    if parts == [] then []
    else if |parts| == 1 then parts[0]
    else parts[0] + sep + Join(parts[1..], sep)
  }

  lemma {:induction false} JoinStartsWithFirst<T>(parts: seq<seq<T>>, sep: seq<T>)
    requires parts != []
    ensures parts[0] <= Join(parts, sep)
  {
  }

  /** `[...s].reverse()`. */
  function Reverse<T>(s: seq<T>): (r: seq<T>)
    ensures |r| == |s|
  {
    if s == [] then [] else Reverse(s[1..]) + [s[0]]
  }

  lemma {:induction false} ReverseAt<T>(s: seq<T>, i: nat)
    requires i < |s|
    ensures Reverse(s)[i] == s[|s| - 1 - i]
  {
    if i < |s| - 1 {
      ReverseAt(s[1..], i);
    }
  }
}
