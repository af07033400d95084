/** Grouping a list by a key, and sorting: what every report loop over a map relies on. */
module Grouping {
  import opened Prelude

  /** The sum of f over the elements whose key is k. */
  function SumOf<T(!new), K(==)>(xs: seq<T>, key: T -> K, k: K, f: T -> int): int {
    if xs == [] then 0
    else
      var x := xs[|xs| - 1];
      SumOf(xs[..|xs| - 1], key, k, f) + if key(x) == k then f(x) else 0
  }

  lemma {:induction false} SumOfConcat<T(!new), K>(xs: seq<T>, ys: seq<T>, key: T -> K, k: K, f: T -> int)
    ensures SumOf(xs + ys, key, k, f) == SumOf(xs, key, k, f) + SumOf(ys, key, k, f)
  {
    if ys == [] {
      assert xs + ys == xs;
    } else {
      assert (xs + ys)[..|xs + ys| - 1] == xs + ys[..|ys| - 1];
      SumOfConcat(xs, ys[..|ys| - 1], key, k, f);
    }
  }

  lemma SumOfSingle<T(!new), K>(x: T, key: T -> K, k: K, f: T -> int)
    ensures SumOf([x], key, k, f) == if key(x) == k then f(x) else 0
  {
    assert [x][..0] == [];
    assert SumOf([x][..0], key, k, f) == 0;
  }

  lemma {:induction false} SumOfIsSum<T(!new), K>(xs: seq<T>, key: T -> K, k: K, f: T -> int, masked: T -> int)
    requires forall x :: masked(x) == if key(x) == k then f(x) else 0
    ensures SumOf(xs, key, k, f) == Sum(xs, masked)
  {
    if xs != [] {
      SumOfIsSum(xs[..|xs| - 1], key, k, f, masked);
    }
  }

  /** A group's sum does not depend on the order of the list. */
  lemma SumOfPermutes<T(!new), K>(xs: seq<T>, ys: seq<T>, key: T -> K, k: K, f: T -> int)
    requires multiset(xs) == multiset(ys)
    ensures SumOf(xs, key, k, f) == SumOf(ys, key, k, f)
  {
    var masked := x => if key(x) == k then f(x) else 0;
    SumOfIsSum(xs, key, k, f, masked);
    SumOfIsSum(ys, key, k, f, masked);
    SumPermutation(xs, ys, masked);
  }

  ghost predicate Distinct<K>(ks: seq<K>) {
    forall i, j :: 0 <= i < j < |ks| ==> ks[i] != ks[j]
  }

  /** The sums of the groups, added up. */
  function SumGroups<T(!new), K(==)>(xs: seq<T>, key: T -> K, ks: seq<K>, f: T -> int): int {
    if ks == [] then 0 else SumGroups(xs, key, ks[..|ks| - 1], f) + SumOf(xs, key, ks[|ks| - 1], f)
  }

  lemma {:induction false} SumGroupsSnoc<T(!new), K>(xs: seq<T>, x: T, key: T -> K, ks: seq<K>, f: T -> int)
    requires Distinct(ks)
    ensures SumGroups(xs + [x], key, ks, f) == SumGroups(xs, key, ks, f) + if key(x) in ks then f(x) else 0
  {
    if ks != [] {
      SumGroupsSnoc(xs, x, key, ks[..|ks| - 1], f);
      assert (xs + [x])[..|xs|] == xs;
      if key(x) == ks[|ks| - 1] {
        assert key(x) !in ks[..|ks| - 1];
      }
    }
  }

  /** Whatever the order of the groups, if each key has one group their sums add up to the ungrouped sum. */
  lemma {:induction false} GroupsAddUp<T(!new), K>(xs: seq<T>, key: T -> K, ks: seq<K>, f: T -> int)
    requires Distinct(ks)
    requires forall x | x in xs :: key(x) in ks
    ensures SumGroups(xs, key, ks, f) == Sum(xs, f)
  {
    if xs == [] {
      NoElements(key, ks, f);
    } else {
      var n := |xs| - 1;
      assert xs == xs[..n] + [xs[n]];
      GroupsAddUp(xs[..n], key, ks, f);
      SumGroupsSnoc(xs[..n], xs[n], key, ks, f);
    }
  }

  lemma {:induction false} NoElements<T(!new), K>(key: T -> K, ks: seq<K>, f: T -> int)
    ensures SumGroups([], key, ks, f) == 0
  {
    if ks != [] {
      NoElements(key, ks[..|ks| - 1], f);
    }
  }

  /** The keys of a map, each once, in no particular order. */
  method KeysOf<K(==), V>(m: map<K, V>) returns (ks: seq<K>)
    ensures Distinct(ks)
    ensures forall k :: k in ks <==> k in m
  {
    ks := [];
    var left := m.Keys;
    while left != {}
      invariant Distinct(ks)
      invariant left <= m.Keys
      invariant forall k :: k in ks <==> k in m.Keys - left
      decreases left
    {
      var k :| k in left;
      assert k !in ks;
      ks := ks + [k];
      left := left - {k};
    }
  }

  // ---- Sorting ----

  ghost predicate TotalOrder<T(!new)>(le: (T, T) -> bool) {
    && (forall a, b :: le(a, b) || le(b, a))
    && (forall a, b, c :: le(a, b) && le(b, c) ==> le(a, c))
  }

  ghost predicate SortedBy<T>(xs: seq<T>, le: (T, T) -> bool) {
    forall i, j :: 0 <= i < j < |xs| ==> le(xs[i], xs[j])
  }

  function InsertAt<T>(ys: seq<T>, i: nat, x: T): (zs: seq<T>)
    requires i <= |ys|
    ensures |zs| == |ys| + 1
    ensures forall j :: 0 <= j < |zs| ==> zs[j] == if j < i then ys[j] else if j == i then x else ys[j - 1]
  {
    ys[..i] + [x] + ys[i..]
  }

  lemma InsertAtCounts<T>(ys: seq<T>, i: nat, x: T)
    requires i <= |ys|
    ensures multiset(InsertAt(ys, i, x)) == multiset(ys) + multiset{x}
  {
    assert ys == ys[..i] + ys[i..];
  }

  /** An element between two neighbours in order is between all that come before and all that come after. */
  lemma NeighboursSuffice<T(!new)>(ys: seq<T>, i: nat, j: nat, x: T, le: (T, T) -> bool)
    requires TotalOrder(le) && SortedBy(ys, le) && i <= |ys| && j < |ys|
    requires i > 0 ==> le(ys[i - 1], x)
    requires i < |ys| ==> le(x, ys[i])
    ensures if j < i then le(ys[j], x) else le(x, ys[j])
  {
    if j < i - 1 {
      assert le(ys[j], ys[i - 1]);
    } else if i < j {
      assert le(ys[i], ys[j]);
    }
  }

  lemma InsertAtSorts<T>(ys: seq<T>, i: nat, x: T, le: (T, T) -> bool)
    requires SortedBy(ys, le) && i <= |ys|
    requires forall j :: 0 <= j < |ys| ==> if j < i then le(ys[j], x) else le(x, ys[j])
    ensures SortedBy(InsertAt(ys, i, x), le)
  {
    var zs := InsertAt(ys, i, x);
    forall a, b | 0 <= a < b < |zs| ensures le(zs[a], zs[b]) {
      if a != i && b != i {
        assert le(ys[if a < i then a else a - 1], ys[if b < i then b else b - 1]);
      }
    }
  }

  /** Orders xs by le; elements that le does not tell apart may come in any order. */
  method Sort<T(!new)>(xs: seq<T>, le: (T, T) -> bool) returns (ys: seq<T>)
    requires TotalOrder(le)
    ensures SortedBy(ys, le)
    ensures multiset(ys) == multiset(xs)
  {
    ys := [];
    for n := 0 to |xs|
      invariant SortedBy(ys, le)
      invariant multiset(ys) == multiset(xs[..n])
    {
      var i := |ys|;
      while i > 0 && !le(ys[i - 1], xs[n])
        invariant 0 <= i <= |ys|
        invariant i < |ys| ==> le(xs[n], ys[i])
      {
        i := i - 1;
      }
      assert xs[..n + 1] == xs[..n] + [xs[n]];
      forall j | 0 <= j < |ys| ensures if j < i then le(ys[j], xs[n]) else le(xs[n], ys[j]) {
        NeighboursSuffice(ys, i, j, xs[n], le);
      }
      InsertAtSorts(ys, i, xs[n], le);
      InsertAtCounts(ys, i, xs[n]);
      ys := InsertAt(ys, i, xs[n]);
    }
    assert xs[..|xs|] == xs;
  }

  lemma PermutationKeepsDistinct<T>(xs: seq<T>, ys: seq<T>)
    requires Distinct(xs) && multiset(xs) == multiset(ys)
    ensures Distinct(ys)
    ensures forall a: T | a in ys :: a in xs
    ensures forall a: T | a in xs :: a in ys
  {
    forall a: T | a in ys ensures a in xs {
      assert a in multiset(ys);
    }
    forall a: T | a in xs ensures a in ys {
      assert a in multiset(xs);
    }
    forall i, j | 0 <= i < j < |ys|
      ensures ys[i] != ys[j]
    {
      DistinctCounts(xs, ys[i]);
      if ys[i] == ys[j] {
        CountsTwo(ys, i, j);
      }
    }
  }

  method SortInPlace<T(!new)>(a: array<T>, le: (T, T) -> bool)
    requires TotalOrder(le)
    modifies a
    ensures SortedBy(a[..], le)
    ensures multiset(a[..]) == multiset(old(a[..]))
  {
    var ys := Sort(a[..], le);
    assert |multiset(ys)| == |multiset(a[..])|;
    for n := 0 to a.Length
      invariant |ys| == a.Length
      invariant a[..n] == ys[..n]
    {
      a[n] := ys[n];
    }
    assert a[..] == ys;
  }

  lemma {:induction false} DistinctCounts<T>(xs: seq<T>, a: T)
    requires Distinct(xs)
    ensures multiset(xs)[a] <= 1
  {
    if xs != [] {
      var n := |xs| - 1;
      assert xs == xs[..n] + [xs[n]];
      DistinctCounts(xs[..n], a);
      if xs[n] == a {
        assert a !in xs[..n];
      }
    }
  }

  lemma CountsTwo<T>(xs: seq<T>, i: nat, j: nat)
    requires i < j < |xs| && xs[i] == xs[j]
    ensures multiset(xs)[xs[i]] >= 2
  {
    assert xs == xs[..j] + [xs[j]] + xs[j + 1..];
    assert xs[i] in xs[..j];
  }

  /** Strings in code point order. */
  predicate StringLe(a: string, b: string) {
    if a == "" then true
    else if b == "" then false
    else if a[0] != b[0] then a[0] < b[0]
    else StringLe(a[1..], b[1..])
  }

  /** a comes no later than b if it begins b, or where they first differ it has the smaller character. */
  lemma {:induction false} StringLeExactly(a: string, b: string)
    ensures StringLe(a, b)
            <==> a <= b || exists i :: 0 <= i < |a| && i < |b| && a[..i] == b[..i] && a[i] < b[i]
    decreases |a|
  {
    if a != "" && b != "" {
      var a', b' := a[1..], b[1..];
      forall i | 0 < i < |a| && i < |b| && a[..i] == b[..i] ensures a[0] == b[0] {
        assert a[..i][0] == a[0] && b[..i][0] == b[0];
      }
      if a[0] == b[0] {
        StringLeExactly(a', b');
        assert a == [a[0]] + a' && b == [b[0]] + b';
        if i :| 0 <= i < |a'| && i < |b'| && a'[..i] == b'[..i] && a'[i] < b'[i] {
          assert a[..i + 1] == [a[0]] + a'[..i] && b[..i + 1] == [b[0]] + b'[..i];
          assert a[i + 1] < b[i + 1];
        }
        if i :| 0 <= i < |a| && i < |b| && a[..i] == b[..i] && a[i] < b[i] {
          assert a'[..i - 1] == a[..i][1..] && b'[..i - 1] == b[..i][1..];
          assert a'[i - 1] < b'[i - 1];
        }
      } else {
        assert a[..0] == b[..0];
      }
    }
  }

  lemma {:induction false} StringLeTotal(a: string, b: string)
    ensures StringLe(a, b) || StringLe(b, a)
    decreases |a|
  {
    if a != "" && b != "" {
      StringLeTotal(a[1..], b[1..]);
    }
  }

  lemma {:induction false} StringLeTransitive(a: string, b: string, c: string)
    requires StringLe(a, b) && StringLe(b, c)
    ensures StringLe(a, c)
    decreases |a|
  {
    if a != "" && b != "" && c != "" && a[0] == b[0] == c[0] {
      StringLeTransitive(a[1..], b[1..], c[1..]);
    }
  }

  lemma StringOrder()
    ensures TotalOrder(StringLe)
  {
    forall a, b ensures StringLe(a, b) || StringLe(b, a) {
      StringLeTotal(a, b);
    }
    forall a, b, c | StringLe(a, b) && StringLe(b, c) ensures StringLe(a, c) {
      StringLeTransitive(a, b, c);
    }
  }
}
