/**
 * The array handler `$(array)`: lookups that leave the array alone
 * (`makeUnique`, `last`, `sum`, `flatten`), operations that rearrange it in
 * place (`min`, `max`, `minBy`, `maxBy` sort it; `remove` splices it;
 * `shuffle` swaps its elements) and the partitions `divideIn` and `chunks`.
 */
module ArrayMethods {
  import opened Wrappers
  import Seqs

  // ---------------------------------------------------------------------------
  // Searching

  /** The first position from `i` on holding `x`, or -1. */
  function IndexFrom<T(==)>(s: seq<T>, x: T, i: nat): (r: int)
    requires i <= |s|
    ensures r == -1 || i <= r < |s|
    ensures r >= 0 ==> s[r] == x && forall k :: i <= k < r ==> s[k] != x
    ensures r == -1 ==> forall k :: i <= k < |s| ==> s[k] != x
    decreases |s| - i
  {
    if i == |s| then -1
    else if s[i] == x then i
    else IndexFrom(s, x, i + 1)
  }

  /** `indexOf`: the first position holding `x`, or -1. */
  function IndexOf<T(==)>(s: seq<T>, x: T): (r: int)
    ensures -1 <= r < |s|
    ensures r >= 0 ==> s[r] == x && x !in s[..r]
    ensures r == -1 <==> x !in s
  {
    IndexFrom(s, x, 0)
  }

  // ---------------------------------------------------------------------------
  // makeUnique

  /** `filter((value, index, self) => self.indexOf(value) === index)` over the first `n` elements. */
  function UniqueUpTo<T(==)>(s: seq<T>, n: nat): (r: seq<T>)
    requires n <= |s|
    ensures |r| <= n
  {
    if n == 0 then []
    else UniqueUpTo(s, n - 1) + (if IndexOf(s, s[n - 1]) == n - 1 then [s[n - 1]] else [])
  }

  /**
   * The filter keeps one copy of every value of the prefix, ordered by
   * first occurrence.
   */
  lemma {:induction false} UniqueUpToKeepsFirsts<T>(s: seq<T>, n: nat)
    requires n <= |s|
    ensures UniqueFirsts(s, n, UniqueUpTo(s, n))
  {
    if n > 0 {
      UniqueUpToKeepsFirsts(s, n - 1);
      var prev := UniqueUpTo(s, n - 1);
      if IndexOf(s, s[n - 1]) == n - 1 {
        assert UniqueUpTo(s, n) == prev + [s[n - 1]];
        UniqueStep(s, n, prev);
      } else {
        assert UniqueUpTo(s, n) == prev;
        UniqueSkip(s, n, prev);
      }
    }
  }

  /** `r` holds one copy of each value of `s[..n]`, ordered by first occurrence in `s`. */
  predicate UniqueFirsts<T(==)>(s: seq<T>, n: nat, r: seq<T>)
    requires n <= |s|
  {
    (forall i :: 0 <= i < |r| ==> r[i] in s[..n]) &&
    (forall i :: 0 <= i < n ==> s[i] in r) &&
    (forall i, j :: 0 <= i < j < |r| ==> IndexOf(s, r[i]) < IndexOf(s, r[j])) &&
    (forall i :: 0 <= i < |r| ==> IndexOf(s, r[i]) < n)
  }

  lemma UniqueSkip<T>(s: seq<T>, n: nat, prev: seq<T>)
    requires 0 < n <= |s| && IndexOf(s, s[n - 1]) != n - 1
    requires UniqueFirsts(s, n - 1, prev)
    ensures UniqueFirsts(s, n, prev)
  {
    var k := IndexOf(s, s[n - 1]);
    Seqs.TakeSnoc(s, n);
    forall i | 0 <= i < |prev| ensures prev[i] in s[..n] {
      assert prev[i] in s[..n - 1];
    }
    forall i | 0 <= i < n ensures s[i] in prev {
      if i == n - 1 {
        assert s[k] in prev;
      }
    }
  }

  lemma UniqueStep<T>(s: seq<T>, n: nat, prev: seq<T>)
    requires 0 < n <= |s| && IndexOf(s, s[n - 1]) == n - 1
    requires UniqueFirsts(s, n - 1, prev)
    ensures UniqueFirsts(s, n, prev + [s[n - 1]])
  {
    Seqs.TakeSnoc(s, n);
    UniqueStepMembers(s, n, prev);
    UniqueStepCovers(s, n, prev);
    UniqueStepOrder(s, n, prev);
  }

  lemma UniqueStepMembers<T>(s: seq<T>, n: nat, prev: seq<T>)
    requires 0 < n <= |s| && IndexOf(s, s[n - 1]) == n - 1
    requires UniqueFirsts(s, n - 1, prev)
    ensures var r := prev + [s[n - 1]];
      forall i :: 0 <= i < |r| ==> r[i] in s[..n] && IndexOf(s, r[i]) < n
  {
    var r := prev + [s[n - 1]];
    Seqs.TakeSnoc(s, n);
    forall i | 0 <= i < |r| ensures r[i] in s[..n] && IndexOf(s, r[i]) < n {
      if i < |prev| {
        assert r[i] == prev[i];
      }
    }
  }

  lemma UniqueStepCovers<T>(s: seq<T>, n: nat, prev: seq<T>)
    requires 0 < n <= |s|
    requires UniqueFirsts(s, n - 1, prev)
    ensures forall i :: 0 <= i < n ==> s[i] in prev + [s[n - 1]]
  {
    var r := prev + [s[n - 1]];
    forall i | 0 <= i < n ensures s[i] in r {
      if i < n - 1 {
        assert s[i] in prev;
      } else {
        assert r[|prev|] == s[n - 1];
      }
    }
  }

  lemma UniqueStepOrder<T>(s: seq<T>, n: nat, prev: seq<T>)
    requires 0 < n <= |s| && IndexOf(s, s[n - 1]) == n - 1
    requires UniqueFirsts(s, n - 1, prev)
    ensures var r := prev + [s[n - 1]];
      forall i, j :: 0 <= i < j < |r| ==> IndexOf(s, r[i]) < IndexOf(s, r[j])
  {
    var r := prev + [s[n - 1]];
    forall i, j | 0 <= i < j < |r| ensures IndexOf(s, r[i]) < IndexOf(s, r[j]) {
      assert r[i] == prev[i];
      if j < |prev| {
        assert r[j] == prev[j];
      }
    }
  }

  /** No value is kept twice. */
  lemma UniqueHasNoDuplicates<T>(s: seq<T>)
    ensures forall i, j :: 0 <= i < j < |UniqueUpTo(s, |s|)| ==> UniqueUpTo(s, |s|)[i] != UniqueUpTo(s, |s|)[j]
  {
    var r := UniqueUpTo(s, |s|);
    UniqueUpToKeepsFirsts(s, |s|);
    forall i, j | 0 <= i < j < |r| ensures r[i] != r[j] {
      assert IndexOf(s, r[i]) < IndexOf(s, r[j]);
    }
  }

  // ---------------------------------------------------------------------------
  // Sorting, as `Array.prototype.sort` does it: a stable sort by the comparator

  predicate SortedBy<T>(s: seq<T>, key: T -> int)
  {
    forall i, j :: 0 <= i < j < |s| ==> key(s[i]) <= key(s[j])
  }

  /** Inserting before the first element whose key is not smaller keeps earlier elements ahead of equal ones. */
  function Insert<T>(x: T, s: seq<T>, key: T -> int): (r: seq<T>)
    ensures |r| == |s| + 1
  {
    if s == [] || key(x) <= key(s[0]) then [x] + s else [s[0]] + Insert(x, s[1..], key)
  }

  function SortBy<T>(s: seq<T>, key: T -> int): (r: seq<T>)
    ensures |r| == |s|
  {
    if s == [] then [] else Insert(s[0], SortBy(s[1..], key), key)
  }

  lemma {:induction false} InsertPermutes<T>(x: T, s: seq<T>, key: T -> int)
    ensures multiset(Insert(x, s, key)) == multiset(s) + multiset{x}
  {
    if s != [] && key(x) > key(s[0]) {
      InsertPermutes(x, s[1..], key);
      assert s == [s[0]] + s[1..];
    }
  }

  lemma {:induction false} InsertSorted<T>(x: T, s: seq<T>, key: T -> int)
    requires SortedBy(s, key)
    ensures SortedBy(Insert(x, s, key), key)
    ensures Insert(x, s, key)[0] == (if s == [] || key(x) <= key(s[0]) then x else s[0])
  {
    if s != [] && key(x) > key(s[0]) {
      InsertSorted(x, s[1..], key);
      InsertPermutes(x, s[1..], key);
      var t := Insert(x, s[1..], key);
      forall i | 0 <= i < |t| ensures key(s[0]) <= key(t[i]) {
        assert t[i] in multiset(t);
        assert t[i] in multiset(s[1..]) || t[i] == x;
        if t[i] != x {
          var k :| 0 <= k < |s[1..]| && s[1..][k] == t[i];
          assert s[k + 1] == t[i];
        }
      }
    }
  }

  /** The sort leaves a permutation, ordered by key. */
  lemma {:induction false} SortByIsSorted<T>(s: seq<T>, key: T -> int)
    ensures SortedBy(SortBy(s, key), key)
    ensures multiset(SortBy(s, key)) == multiset(s)
  {
    if s != [] {
      SortByIsSorted(s[1..], key);
      InsertSorted(s[0], SortBy(s[1..], key), key);
      InsertPermutes(s[0], SortBy(s[1..], key), key);
      assert s == [s[0]] + s[1..];
    }
  }

  /** The first element after sorting is the earliest element with the smallest key. */
  lemma {:induction false} SortedHead<T>(s: seq<T>, key: T -> int) returns (i: nat)
    requires s != []
    ensures i < |s| && SortBy(s, key)[0] == s[i]
    ensures forall j :: 0 <= j < |s| ==> key(s[i]) <= key(s[j])
    ensures forall j :: 0 <= j < i ==> key(s[j]) > key(s[i])
  {
    var t := SortBy(s[1..], key);
    SortByIsSorted(s[1..], key);
    InsertSorted(s[0], t, key);
    if s[1..] == [] {
      i := 0;
    } else {
      var i' := SortedHead(s[1..], key);
      if key(s[0]) <= key(t[0]) {
        i := 0;
        forall j | 0 <= j < |s| ensures key(s[0]) <= key(s[j]) {
          if j > 0 { assert s[j] == s[1..][j - 1]; }
        }
      } else {
        i := i' + 1;
        forall j | 0 <= j < |s| ensures key(s[i]) <= key(s[j]) {
          if j > 0 { assert s[j] == s[1..][j - 1]; }
        }
        forall j | 0 <= j < i ensures key(s[j]) > key(s[i]) {
          if j > 0 { assert s[j] == s[1..][j - 1]; }
        }
      }
    }
  }

  /** The order `(a, b) => b[prop] - a[prop]` sorts by: the opposite key. */
  function Opposite<T>(key: T -> int): T -> int
  {
    x => -key(x)
  }

  /** Sorted by the opposite key means sorted descending. */
  lemma OppositeSorted<T>(s: seq<T>, key: T -> int)
    requires SortedBy(s, Opposite(key))
    ensures forall i, j :: 0 <= i < j < |s| ==> key(s[i]) >= key(s[j])
  {
    forall i, j | 0 <= i < j < |s| ensures key(s[i]) >= key(s[j]) {
      assert Opposite(key)(s[i]) <= Opposite(key)(s[j]);
    }
  }

  // ---------------------------------------------------------------------------
  // Partitions

  /** The parts, one after the other. */
  function Concat<T>(parts: seq<seq<T>>): seq<T>
  {
    if parts == [] then [] else Concat(parts[..|parts| - 1]) + parts[|parts| - 1]
  }

  lemma ConcatSnoc<T>(parts: seq<seq<T>>, p: seq<T>)
    ensures Concat(parts + [p]) == Concat(parts) + p
  {
    assert (parts + [p])[..|parts|] == parts;
  }

  function Min(a: int, b: int): int
  {
    if a < b then a else b
  }

  /** Where the `k`-th part of `divideIn` starts: `k` full part lengths plus one for each longer part before it. */
  function Offset(k: nat, partLength: nat, rest: nat): nat
  {
    k * partLength + Min(k, rest)
  }

  lemma OffsetStep(k: nat, partLength: nat, rest: nat)
    ensures Offset(k + 1, partLength, rest) == Offset(k, partLength, rest) + partLength + (if k < rest then 1 else 0)
  {
    assert (k + 1) * partLength == k * partLength + partLength;
  }

  lemma {:induction false} OffsetMono(k: nat, m: nat, partLength: nat, rest: nat)
    requires k <= m
    ensures Offset(k, partLength, rest) <= Offset(m, partLength, rest)
    ensures k < m && partLength > 0 ==> Offset(k, partLength, rest) < Offset(m, partLength, rest)
    decreases m - k
  {
    if k < m {
      OffsetMono(k + 1, m, partLength, rest);
      OffsetStep(k, partLength, rest);
    }
  }

  /** All `n` parts together span the whole length. */
  lemma DivisionLayout(len: nat, n: nat)
    requires n > 0
    ensures Offset(n, len / n, len % n) == len
  {
  }

  /** Before the end every part of `divideIn` is non-empty. */
  lemma DivisionProgress(len: nat, n: nat, k: nat)
    requires n > 0 && Offset(k, len / n, len % n) < len
    ensures len / n > 0 || k < len % n
  {
    DivisionLayout(len, n);
    if len / n == 0 {
      assert k * 0 == 0 && n * 0 == 0;
    }
  }

  /** One turn of the `divideIn` loop in numbers: while parts remain, the next one is non-empty and ends within the length. */
  lemma NextPartBounds(len: nat, n: nat, k: nat, partLength: nat, rest: nat)
    requires n > 0 && partLength == len / n && rest == len % n
    requires Offset(k, partLength, rest) < len
    ensures k < n && Offset(k, partLength, rest) < Offset(k + 1, partLength, rest) <= len
    ensures Offset(k + 1, partLength, rest) == Offset(k, partLength, rest) + PartSize(len, n, k)
  {
    DivisionLayout(len, n);
    if k >= n {
      OffsetMono(n, k, partLength, rest);
      assert false;
    }
    OffsetMono(k + 1, n, partLength, rest);
    OffsetStep(k, partLength, rest);
    DivisionProgress(len, n, k);
  }

  /** One turn of the `divideIn` loop: the next part is the next `PartSize` elements, and it fits. */
  lemma DivideNext<T>(elems: seq<T>, n: nat, parts: seq<seq<T>>, partLength: nat, rest: nat)
    requires n > 0 && partLength == |elems| / n && rest == |elems| % n
    requires Offset(|parts|, partLength, rest) < |elems|
    requires Concat(parts) == elems[..Offset(|parts|, partLength, rest)]
    requires forall k :: 0 <= k < |parts| ==> |parts[k]| == PartSize(|elems|, n, k)
    ensures var i := Offset(|parts|, partLength, rest);
      var end := Offset(|parts| + 1, partLength, rest);
      |parts| < n && i < end <= |elems| && end == i + PartSize(|elems|, n, |parts|) &&
      Concat(parts + [elems[i..end]]) == elems[..end] &&
      forall k :: 0 <= k < |parts| + 1 ==> |(parts + [elems[i..end]])[k]| == PartSize(|elems|, n, k)
  {
    var k := |parts|;
    NextPartBounds(|elems|, n, k, partLength, rest);
    var i, end := Offset(k, partLength, rest), Offset(k + 1, partLength, rest);
    ConcatSnoc(parts, elems[i..end]);
    assert elems[..i] + elems[i..end] == elems[..end];
  }

  /** The loop of `divideIn` stops after `min(n, len)` parts. */
  lemma DivisionCount(len: nat, n: nat, k: nat, partLength: nat, rest: nat)
    requires n > 0 && partLength == len / n && rest == len % n
    requires k <= len && Offset(k, partLength, rest) == len
    ensures k == Min(n, len)
  {
    DivisionLayout(len, n);
    if k < n {
      OffsetMono(k, n, partLength, rest);
    } else if k > n {
      OffsetMono(n, k, partLength, rest);
    }
  }

  /**  The size `divideIn` gives its `k`-th part: the length divided by the number of parts, plus one for the first `len % n` parts. */
  function PartSize(len: nat, n: nat, k: nat): nat
    requires n > 0
  {
    len / n + (if k < len % n then 1 else 0)
  }

  // ---------------------------------------------------------------------------
  // Flattening

  /** A value that may be an array of values, arrays nested to any depth. */
  datatype Nested<T> = Item(value: T) | Nest(items: seq<Nested<T>>)

  /** `flatDeep(arr)`: `arr.reduce((acc, val) => Array.isArray(val) ? acc.concat(flatDeep(val)) : acc.concat(val), [])`. */
  function FlatDeep<T>(arr: seq<Nested<T>>): (r: seq<T>)
    ensures forall i :: 0 <= i < |arr| && arr[i].Item? ==> arr[i].value in r
    decreases arr, 1
  {
    FlatFrom([], arr)
  }

  function FlatFrom<T>(acc: seq<T>, arr: seq<Nested<T>>): (r: seq<T>)
    ensures acc <= r
    ensures forall i :: 0 <= i < |arr| && arr[i].Item? ==> arr[i].value in r
    decreases arr, 0
  {
    if arr == [] then acc
    else
      var next := acc + Piece(arr[0]);
      var r := FlatFrom(next, arr[1..]);
      assert forall i :: 1 <= i < |arr| ==> arr[i] == arr[1..][i - 1];
      assert arr[0].Item? ==> r[|acc|] == next[|acc|] == arr[0].value;
      r
  }

  /** What one element adds to the accumulator: its own value, or its flattening. */
  function Piece<T>(v: Nested<T>): seq<T>
    decreases v, 2
  {
    match v
    case Item(x) => [x]
    case Nest(items) => FlatDeep(items)
  }

  /** The leaves of nested values, left to right. */
  function Leaves<T>(arr: seq<Nested<T>>): seq<T>
    decreases arr
  {
    if arr == [] then [] else LeavesOf(arr[0]) + Leaves(arr[1..])
  }

  function LeavesOf<T>(v: Nested<T>): seq<T>
    decreases v
  {
    match v
    case Item(x) => [x]
    case Nest(items) => Leaves(items)
  }

  /** The reduce collects the leaves after what it started with. */
  lemma {:induction false} FlatFromLeaves<T>(acc: seq<T>, arr: seq<Nested<T>>)
    ensures FlatFrom(acc, arr) == acc + Leaves(arr)
    decreases arr
  {
    if arr != [] {
      PieceLeaves(arr[0]);
      FlatFromLeaves(acc + Piece(arr[0]), arr[1..]);
    }
  }

  lemma {:induction false} PieceLeaves<T>(v: Nested<T>)
    ensures Piece(v) == LeavesOf(v)
    decreases v
  {
    if v.Nest? {
      FlatFromLeaves([], v.items);
    }
  }

  /** `flatten` gives the leaves in left-to-right order. */
  lemma FlattenIsLeaves<T>(arr: seq<Nested<T>>)
    ensures FlatDeep(arr) == Leaves(arr)
  {
    FlatFromLeaves([], arr);
  }

  /** The values as an array of plain values. */
  function Items<T>(vs: seq<T>): (r: seq<Nested<T>>)
    ensures |r| == |vs| && forall i :: 0 <= i < |vs| ==> r[i] == Item(vs[i])
  {
    if vs == [] then [] else [Item(vs[0])] + Items(vs[1..])
  }

  lemma {:induction false} LeavesOfItems<T>(vs: seq<T>)
    ensures Leaves(Items(vs)) == vs
  {
    if vs != [] {
      LeavesOfItems(vs[1..]);
      assert Items(vs)[1..] == Items(vs[1..]);
    }
  }

  /** A flat array flattens to its own values, so flattening twice changes nothing. */
  lemma FlattenIdempotent<T>(arr: seq<Nested<T>>)
    ensures FlatDeep(Items(FlatDeep(arr))) == FlatDeep(arr)
  {
    FlattenIsLeaves(Items(FlatDeep(arr)));
    LeavesOfItems(FlatDeep(arr));
  }

  // ---------------------------------------------------------------------------
  // Sums

  /** `reduce((acc, curr) => (acc += curr), acc)`. */
  function SumFrom(acc: int, s: seq<int>): int
    decreases s
  {
    if s == [] then acc else SumFrom(acc + s[0], s[1..])
  }

  /** The arithmetic sum of the elements. */
  function Total(s: seq<int>): int
  {
    if s == [] then 0 else Total(s[..|s| - 1]) + s[|s| - 1]
  }

  lemma {:induction false} TotalCons(x: int, s: seq<int>)
    ensures Total([x] + s) == x + Total(s)
    decreases |s|
  {
    if s != [] {
      var init := s[..|s| - 1];
      assert ([x] + s)[..|s|] == [x] + init;
      TotalCons(x, init);
    }
  }

  lemma {:induction false} SumFromTotal(acc: int, s: seq<int>)
    ensures SumFrom(acc, s) == acc + Total(s)
    decreases s
  {
    if s != [] {
      SumFromTotal(acc + s[0], s[1..]);
      TotalCons(s[0], s[1..]);
      assert s == [s[0]] + s[1..];
    }
  }

  lemma {:induction false} TotalConcat(a: seq<int>, b: seq<int>)
    ensures Total(a + b) == Total(a) + Total(b)
    decreases |b|
  {
    if b != [] {
      var init := b[..|b| - 1];
      assert (a + b)[..|a + b| - 1] == a + init;
      assert (a + b)[|a + b| - 1] == b[|b| - 1];
      TotalConcat(a, init);
    } else {
      assert a + b == a;
    }
  }

  // ---------------------------------------------------------------------------
  // The handler

  class ArrayHandler<T(==)> {
    var elems: seq<T>

    constructor(elems: seq<T>)
      ensures this.elems == elems
    {
      this.elems := elems;
    }

    /** `makeUnique()`: the first occurrence of every value, in order; the array is left alone. */
    function MakeUnique(): (r: seq<T>)
      reads this
      ensures forall i :: 0 <= i < |r| ==> r[i] in elems
      ensures forall i :: 0 <= i < |elems| ==> elems[i] in r
      ensures forall i, j :: 0 <= i < j < |r| ==> IndexOf(elems, r[i]) < IndexOf(elems, r[j])
      ensures forall i :: 0 <= i < |r| ==> elems[IndexOf(elems, r[i])] == r[i]
    {
      assert elems[..|elems|] == elems;
      UniqueUpToKeepsFirsts(elems, |elems|);
      UniqueUpTo(elems, |elems|)
    }

    /** `last()`: the last element, undefined for an empty array. */
    function Last(): (r: Option<T>)
      reads this
      ensures r.None? <==> elems == []
      ensures r.Some? ==> r.value == elems[|elems| - 1]
    {
      if elems == [] then None else Some(elems[|elems| - 1])
    }

    /** `minBy(prop)`: sorts the array ascending by `prop` (stably) and returns its first element. */
    method MinBy(key: T -> int) returns (r: Option<T>)
      modifies this
      ensures elems == SortBy(old(elems), key)
      ensures SortedBy(elems, key) && multiset(elems) == multiset(old(elems))
      ensures r.None? <==> elems == []
      ensures r.Some? ==> r.value == elems[0] && forall x :: x in elems ==> key(r.value) <= key(x)
    {
      elems := SortBy(elems, key);
      SortByIsSorted(old(elems), key);
      if elems == [] {
        return None;
      }
      r := Some(elems[0]);
      forall x | x in elems ensures key(r.value) <= key(x) {
        var i :| 0 <= i < |elems| && elems[i] == x;
        if i > 0 { assert key(elems[0]) <= key(elems[i]); }
      }
    }

    /** `maxBy(prop)`: sorts the array descending by `prop` (stably) and returns its first element. */
    method MaxBy(key: T -> int) returns (r: Option<T>)
      modifies this
      ensures elems == SortBy(old(elems), Opposite(key))
      ensures multiset(elems) == multiset(old(elems))
      ensures forall i, j :: 0 <= i < j < |elems| ==> key(elems[i]) >= key(elems[j])
      ensures r.None? <==> elems == []
      ensures r.Some? ==> r.value == elems[0] && forall x :: x in elems ==> key(r.value) >= key(x)
    {
      elems := SortBy(elems, Opposite(key));
      SortByIsSorted(old(elems), Opposite(key));
      OppositeSorted(elems, key);
      if elems == [] {
        return None;
      }
      r := Some(elems[0]);
      forall x | x in elems ensures key(r.value) >= key(x) {
        var i :| 0 <= i < |elems| && elems[i] == x;
        if i > 0 { assert key(elems[0]) >= key(elems[i]); }
      }
    }

    /**
     * `remove(item)`: splices out the first occurrence of `item` and says
     * whether there was one; without one the array is unchanged.
     */
    method Remove(item: T) returns (removed: bool)
      modifies this
      ensures removed <==> item in old(elems)
      ensures removed ==>
        var i := IndexOf(old(elems), item);
        elems == old(elems)[..i] + old(elems)[i + 1..]
      ensures !removed ==> elems == old(elems)
      ensures multiset(elems) == multiset(old(elems)) - multiset{item}
    {
      var index := IndexOf(elems, item);
      if index > -1 {
        assert elems == elems[..index] + [item] + elems[index + 1..];
        elems := elems[..index] + elems[index + 1..];
        return true;
      }
      assert item !in multiset(elems);
      return false;
    }

    /**
     * `shuffle()`: the Fisher-Yates loop from the last position down, with
     * `picks[i]` standing for the random position in `[0, i]` drawn at `i`.
     */
    method Shuffle(picks: seq<nat>) returns (r: seq<T>)
      requires |picks| == |elems| && ValidPicks(picks)
      modifies this
      ensures elems == Shuffled(old(elems), picks, |old(elems)| - 1)
      ensures |elems| == |old(elems)| && multiset(elems) == multiset(old(elems))
      ensures (forall i :: 0 <= i < |picks| ==> picks[i] == i) ==> elems == old(elems)
      ensures r == elems
    {
      ShuffledPermutes(elems, picks, |elems| - 1);
      ShuffledIdentity(elems, picks, |elems| - 1);
      var i := |elems| - 1;
      while i > 0
        invariant -1 <= i < |elems| && |elems| == |old(elems)|
        invariant Shuffled(elems, picks, i) == Shuffled(old(elems), picks, |old(elems)| - 1)
      {
        var j := picks[i];
        var x := elems[i];
        elems := elems[i := elems[j]][j := x];
        i := i - 1;
      }
      r := elems;
    }

    /**
     * `divideIn(n)`: `n` parts whose sizes differ by at most one, the longer
     * ones first; fewer elements than parts give one part per element. With
     * `n = 0` the part length is infinite: one part holds everything.
     */
    method DivideIn(n: nat) returns (result: seq<seq<T>>)
      ensures Concat(result) == elems
      ensures n == 0 ==> result == (if elems == [] then [] else [elems])
      ensures n > 0 ==> |result| == Min(n, |elems|)
      ensures n > 0 ==> forall k :: 0 <= k < |result| ==> |result[k]| == PartSize(|elems|, n, k)
    {
      var len := |elems|;
      if n == 0 {
        if len == 0 {
          return [];
        }
        result := [elems];
        assert Concat(result) == Concat(result[..0]) + elems;
        return;
      }
      result := DivideEvenly(n);
    }

    /** `divideIn(n)` for a positive `n`: the loop laying out the parts. */
    method DivideEvenly(n: nat) returns (result: seq<seq<T>>)
      requires n > 0
      ensures Concat(result) == elems
      ensures |result| == Min(n, |elems|)
      ensures forall k :: 0 <= k < |result| ==> |result[k]| == PartSize(|elems|, n, k)
    {
      var len := |elems|;
      var rest: nat, partLength: nat := len % n, len / n;
      var restUsed := rest;
      result := [];
      var i := 0;
      while i < len
        invariant |result| <= i <= len
        invariant restUsed == rest - Min(|result|, rest)
        invariant i == Offset(|result|, partLength, rest)
        invariant Concat(result) == elems[..i]
        invariant forall k :: 0 <= k < |result| ==> |result[k]| == PartSize(len, n, k)
        decreases len - i
      {
        DivideNext(elems, n, result, partLength, rest);
        var end := partLength + i;
        var add := false;
        if rest != 0 && restUsed > 0 {
          end := end + 1;
          restUsed := restUsed - 1;
          add := true;
        }
        assert end == Offset(|result| + 1, partLength, rest) by { OffsetStep(|result|, partLength, rest); }
        result := result + [elems[i..end]];
        if add {
          i := i + 1;
        }
        i := i + partLength;
        assert i == end;
      }
      assert elems[..i] == elems;
      DivisionCount(len, n, |result|, partLength, rest);
    }

    /** `chunks(size)`: consecutive parts of `size` elements, the last one possibly shorter but never empty. */
    method Chunks(size: nat) returns (result: seq<seq<T>>)
      requires size > 0
      ensures Concat(result) == elems
      ensures forall k :: 0 <= k < |result| - 1 ==> |result[k]| == size
      ensures result != [] ==> 0 < |result[|result| - 1]| <= size
    {
      result := [];
      var i := 0;
      while i < |elems|
        invariant 0 <= i
        invariant Concat(result) == elems[..Min(i, |elems|)]
        invariant forall k :: 0 <= k < |result| - 1 ==> |result[k]| == size
        invariant result != [] ==> 0 < |result[|result| - 1]| <= size
        invariant i <= |elems| ==> forall k :: 0 <= k < |result| ==> |result[k]| == size
        decreases |elems| - i
      {
        var end := Min(i + size, |elems|);
        ConcatSnoc(result, elems[i..end]);
        assert elems[..i] + elems[i..end] == elems[..end];
        result := result + [elems[i..end]];
        i := i + size;
      }
      assert elems[..Min(i, |elems|)] == elems;
    }
  }

  lemma SwapPermutes<T>(s: seq<T>, i: nat, j: nat)
    requires i < |s| && j < |s|
    ensures multiset(s[i := s[j]][j := s[i]]) == multiset(s)
    ensures s[i := s[j]][j := s[i]] == s || i != j
  {
  }

  /** Position `i` of `s` exchanged with position `j`. */
  function Swap<T>(s: seq<T>, i: nat, j: nat): (r: seq<T>)
    requires i < |s| && j < |s|
    ensures |r| == |s| && r[i] == s[j] && r[j] == s[i]
    ensures forall k :: 0 <= k < |s| && k != i && k != j ==> r[k] == s[k]
  {
    s[i := s[j]][j := s[i]]
  }

  /** Draws that each stay within `[0, i]` at position `i`. */
  predicate ValidPicks(picks: seq<nat>)
  {
    forall i :: 0 <= i < |picks| ==> picks[i] <= i
  }

  /** The array after the shuffle loop has swapped each position from `i` down to 1 with its draw. */
  function Shuffled<T>(s: seq<T>, picks: seq<nat>, i: int): seq<T>
    requires |picks| == |s| && ValidPicks(picks) && -1 <= i < |s|
    decreases i
  {
    if i <= 0 then s else Shuffled(Swap(s, i, picks[i]), picks, i - 1)
  }

  /** Shuffling permutes the array. */
  lemma {:induction false} ShuffledPermutes<T>(s: seq<T>, picks: seq<nat>, i: int)
    requires |picks| == |s| && ValidPicks(picks) && -1 <= i < |s|
    ensures |Shuffled(s, picks, i)| == |s|
    ensures multiset(Shuffled(s, picks, i)) == multiset(s)
    decreases i
  {
    if i > 0 {
      SwapPermutes(s, i, picks[i]);
      ShuffledPermutes(Swap(s, i, picks[i]), picks, i - 1);
    }
  }

  /** Drawing every position itself leaves the array as it was. */
  lemma {:induction false} ShuffledIdentity<T>(s: seq<T>, picks: seq<nat>, i: int)
    requires |picks| == |s| && ValidPicks(picks) && -1 <= i < |s|
    ensures (forall k :: 0 <= k < |picks| ==> picks[k] == k) ==> Shuffled(s, picks, i) == s
    decreases i
  {
    if i > 0 && forall k :: 0 <= k < |picks| ==> picks[k] == k {
      assert Swap(s, i, picks[i]) == s;
      ShuffledIdentity(s, picks, i - 1);
    }
  }

  /** Shuffling `[a, b]` with the draw 0 at position 1 exchanges the two. */
  lemma ShuffleTwo<T>(a: T, b: T)
    ensures Shuffled([a, b], [0, 0], 1) == [b, a]
  {
    assert ValidPicks([0, 0]);
    assert Swap([a, b], 1, 0) == [b, a];
  }

  /** `sum()` of a number array: the sum of its elements, 0 when empty. */
  function Sum(h: ArrayHandler<int>): (r: int)
    reads h
  {
    SumFrom(0, h.elems)
  }

  lemma SumIsTotal(h: ArrayHandler<int>)
    ensures Sum(h) == Total(h.elems)
    ensures h.elems == [] ==> Sum(h) == 0
  {
    SumFromTotal(0, h.elems);
  }

  /** `flatten()`: the leaves of the array, left to right. */
  function Flatten<T(==)>(h: ArrayHandler<Nested<T>>): (r: seq<T>)
    reads h
    ensures r == Leaves(h.elems)
  {
    FlattenIsLeaves(h.elems);
    FlatDeep(h.elems)
  }

  /** `min()` of a number array: sorts it ascending and returns its first element, a lower bound of all of them. */
  method Minimum(h: ArrayHandler<int>) returns (r: Option<int>)
    modifies h
    ensures multiset(h.elems) == multiset(old(h.elems))
    ensures forall i, j :: 0 <= i < j < |h.elems| ==> h.elems[i] <= h.elems[j]
    ensures r.None? <==> h.elems == []
    ensures r.Some? ==> r.value == h.elems[0] && forall x :: x in h.elems ==> r.value <= x
  {
    r := h.MinBy(x => x);
  }

  /** `max()` of a number array: sorts it descending and returns its first element, an upper bound of all of them. */
  method Maximum(h: ArrayHandler<int>) returns (r: Option<int>)
    modifies h
    ensures multiset(h.elems) == multiset(old(h.elems))
    ensures forall i, j :: 0 <= i < j < |h.elems| ==> h.elems[i] >= h.elems[j]
    ensures r.None? <==> h.elems == []
    ensures r.Some? ==> r.value == h.elems[0] && forall x :: x in h.elems ==> r.value >= x
  {
    r := h.MaxBy(x => x);
  }
}
