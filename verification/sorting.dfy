/** The insertion sorts of directinput_windows.go (sortInts, sortAxisObjects, sortDeviceInfos)
    and the in-place uniqueInts, each proved against a function on sequences. */
module Sorting {

  /** One step of insertion: the value moves left past everything it is less than. */
  function Insert<T>(less: (T, T) -> bool, sorted: seq<T>, value: T): seq<T> {
    if sorted == [] || !less(value, sorted[|sorted| - 1]) then sorted + [value]
    else Insert(less, sorted[..|sorted| - 1], value) + [sorted[|sorted| - 1]]
  }

  function InsertionSort<T>(less: (T, T) -> bool, s: seq<T>): seq<T> {
    if s == [] then [] else Insert(less, InsertionSort(less, s[..|s| - 1]), s[|s| - 1])
  }

  ghost predicate Sorted<T(!new)>(less: (T, T) -> bool, s: seq<T>) {
    forall i, j | 0 <= i < j < |s| :: !less(s[j], s[i])
  }

  /** The order is strict, and "not less" is transitive: enough to sort by. */
  ghost predicate StrictWeakOrder<T(!new)>(less: (T, T) -> bool) {
    && (forall x, y | less(x, y) :: !less(y, x))
    && (forall x, y, z | !less(x, y) && !less(y, z) :: !less(x, z))
  }

  function Filter<T>(p: T -> bool, s: seq<T>): seq<T> {
    if s == [] then []
    else if p(s[|s| - 1]) then Filter(p, s[..|s| - 1]) + [s[|s| - 1]]
    else Filter(p, s[..|s| - 1])
  }

  // ---- The function meets the specification of a stable sort ----

  lemma {:induction false} InsertKeepsElements<T>(less: (T, T) -> bool, sorted: seq<T>, value: T)
    ensures multiset(Insert(less, sorted, value)) == multiset(sorted) + multiset{value}
    ensures |Insert(less, sorted, value)| == |sorted| + 1
  {
    if sorted == [] || !less(value, sorted[|sorted| - 1]) {
    } else {
      var last := |sorted| - 1;
      InsertKeepsElements(less, sorted[..last], value);
      assert sorted == sorted[..last] + [sorted[last]];
    }
  }

  lemma NotLessTransitive<T(!new)>(less: (T, T) -> bool, x: T, y: T, z: T)
    requires StrictWeakOrder(less) && !less(x, y) && !less(y, z)
    ensures !less(x, z)
  {
  }

  lemma {:induction false} InsertStaysBelow<T(!new)>(less: (T, T) -> bool, sorted: seq<T>, value: T, top: T)
    requires !less(top, value) && forall i | 0 <= i < |sorted| :: !less(top, sorted[i])
    ensures forall i | 0 <= i < |Insert(less, sorted, value)| :: !less(top, Insert(less, sorted, value)[i])
  {
    if sorted == [] || !less(value, sorted[|sorted| - 1]) {
    } else {
      InsertStaysBelow(less, sorted[..|sorted| - 1], value, top);
    }
  }

  lemma AppendKeepsSorted<T(!new)>(less: (T, T) -> bool, front: seq<T>, top: T)
    requires Sorted(less, front) && forall i | 0 <= i < |front| :: !less(top, front[i])
    ensures Sorted(less, front + [top])
  {
  }

  lemma {:induction false} InsertKeepsSorted<T(!new)>(less: (T, T) -> bool, sorted: seq<T>, value: T)
    requires StrictWeakOrder(less) && Sorted(less, sorted)
    ensures Sorted(less, Insert(less, sorted, value))
  {
    if sorted == [] {
    } else {
      var front, top := sorted[..|sorted| - 1], sorted[|sorted| - 1];
      if less(value, top) {
        InsertKeepsSorted(less, front, value);
        InsertStaysBelow(less, front, value, top);
        AppendKeepsSorted(less, Insert(less, front, value), top);
      } else {
        forall i | 0 <= i < |sorted| ensures !less(value, sorted[i]) {
          if i < |front| { NotLessTransitive(less, value, top, sorted[i]); }
        }
        AppendKeepsSorted(less, sorted, value);
      }
    }
  }

  lemma {:induction false} SortKeepsElements<T>(less: (T, T) -> bool, s: seq<T>)
    ensures multiset(InsertionSort(less, s)) == multiset(s)
    ensures |InsertionSort(less, s)| == |s|
  {
    if s == [] {
    } else {
      var last := |s| - 1;
      SortKeepsElements(less, s[..last]);
      InsertKeepsElements(less, InsertionSort(less, s[..last]), s[last]);
      assert s == s[..last] + [s[last]];
    }
  }

  lemma {:induction false} SortIsSorted<T(!new)>(less: (T, T) -> bool, s: seq<T>)
    requires StrictWeakOrder(less)
    ensures Sorted(less, InsertionSort(less, s))
  {
    if s == [] {
    } else {
      SortIsSorted(less, s[..|s| - 1]);
      InsertKeepsSorted(less, InsertionSort(less, s[..|s| - 1]), s[|s| - 1]);
    }
  }

  lemma SortIsSortedPermutation<T(!new)>(less: (T, T) -> bool, s: seq<T>)
    requires StrictWeakOrder(less)
    ensures Sorted(less, InsertionSort(less, s))
    ensures multiset(InsertionSort(less, s)) == multiset(s)
    ensures |InsertionSort(less, s)| == |s|
  {
    SortIsSorted(less, s);
    SortKeepsElements(less, s);
  }

  /** p picks out elements the order does not tell apart. */
  ghost predicate Unordered<T(!new)>(less: (T, T) -> bool, p: T -> bool) {
    forall x, y | p(x) && p(y) :: !less(x, y)
  }

  lemma {:induction false} InsertIsStable<T(!new)>(less: (T, T) -> bool, p: T -> bool, sorted: seq<T>, value: T)
    requires Unordered(less, p)
    ensures Filter(p, Insert(less, sorted, value)) == Filter(p, sorted + [value])
  {
    assert (sorted + [value])[..|sorted|] == sorted;
    if sorted == [] || !less(value, sorted[|sorted| - 1]) {
    } else {
      var last := |sorted| - 1;
      var front := Insert(less, sorted[..last], value);
      InsertIsStable(less, p, sorted[..last], value);
      assert (sorted[..last] + [value])[..last] == sorted[..last];
      assert (front + [sorted[last]])[..|front|] == front;
      assert !(p(value) && p(sorted[last]));
    }
  }

  /** Stability: elements the order does not tell apart keep their order. */
  lemma {:induction false} SortIsStable<T(!new)>(less: (T, T) -> bool, p: T -> bool, s: seq<T>)
    requires Unordered(less, p)
    ensures Filter(p, InsertionSort(less, s)) == Filter(p, s)
  {
    if s == [] {
    } else {
      var last := |s| - 1;
      var front := InsertionSort(less, s[..last]);
      SortIsStable(less, p, s[..last]);
      InsertIsStable(less, p, front, s[last]);
      assert (front + [s[last]])[..|front|] == front;
    }
  }

  lemma MembersOf<T>(a: seq<T>, b: seq<T>, x: T)
    requires multiset(a) == multiset(b)
    ensures x in a <==> x in b
  {
    assert x in a <==> x in multiset(a);
    assert x in b <==> x in multiset(b);
  }

  lemma FrontOf<T>(a: seq<T>)
    requires a != []
    ensures multiset(a[..|a| - 1]) == multiset(a) - multiset{a[|a| - 1]}
  {
    assert a == a[..|a| - 1] + [a[|a| - 1]];
  }

  lemma DropLast<T>(a: seq<T>, b: seq<T>)
    requires a != [] && b != [] && multiset(a) == multiset(b) && a[|a| - 1] == b[|b| - 1]
    ensures multiset(a[..|a| - 1]) == multiset(b[..|b| - 1])
  {
    FrontOf(a);
    FrontOf(b);
  }

  ghost predicate TellsApart<T(!new)>(less: (T, T) -> bool, s: seq<T>) {
    forall x, y | x in s && y in s && x != y :: less(x, y) || less(y, x)
  }

  lemma StillTellsApart<T(!new)>(less: (T, T) -> bool, s: seq<T>, n: nat)
    requires TellsApart(less, s) && n <= |s|
    ensures TellsApart(less, s[..n])
  {
    forall x, y | x in s[..n] && y in s[..n] && x != y ensures less(x, y) || less(y, x) {
      assert x in s && y in s;
    }
  }

  lemma SameGreatest<T(!new)>(less: (T, T) -> bool, a: seq<T>, b: seq<T>)
    requires Sorted(less, a) && Sorted(less, b) && TellsApart(less, a)
    requires multiset(a) == multiset(b) && a != [] && b != []
    ensures a[|a| - 1] == b[|b| - 1]
  {
    var x, y := a[|a| - 1], b[|b| - 1];
    MembersOf(a, b, x);
    MembersOf(a, b, y);
    var i :| 0 <= i < |b| && b[i] == x;
    var j :| 0 <= j < |a| && a[j] == y;
    assert i == |b| - 1 || !less(y, x);
    assert j == |a| - 1 || !less(x, y);
  }

  /** Two arrangements of the same elements, both sorted by an order that tells every two of
      them apart, are the same arrangement. */
  lemma {:induction false} SortedIsCanonical<T(!new)>(less: (T, T) -> bool, a: seq<T>, b: seq<T>)
    requires Sorted(less, a) && Sorted(less, b) && TellsApart(less, a)
    requires multiset(a) == multiset(b)
    ensures a == b
  {
    if a == [] {
      assert |multiset(b)| == 0;
    } else {
      assert |b| == |multiset(b)| == |a|;
      SameGreatest(less, a, b);
      DropLast(a, b);
      var front, rest := a[..|a| - 1], b[..|b| - 1];
      StillTellsApart(less, a, |a| - 1);
      SortedIsCanonical(less, front, rest);
      assert a == front + [a[|a| - 1]] && b == rest + [b[|b| - 1]];
    }
  }

  // ---- The loop in the source computes the function ----

  lemma {:induction false} InsertAt<T>(less: (T, T) -> bool, sorted: seq<T>, value: T, j: nat)
    requires j <= |sorted|
    requires forall k | j <= k < |sorted| :: less(value, sorted[k])
    requires j == 0 || !less(value, sorted[j - 1])
    ensures Insert(less, sorted, value) == sorted[..j] + [value] + sorted[j..]
  {
    var last := |sorted| - 1;
    if j == |sorted| {
    } else {
      InsertAt(less, sorted[..last], value, j);
      assert sorted[..last][..j] == sorted[..j];
      assert sorted[..last][j..] + [sorted[last]] == sorted[j..];
    }
  }

  lemma Spliced<T>(s: seq<T>, front: seq<T>, value: T, j: nat)
    requires |s| == |front| + 1 && j <= |front| && s[j] == value
    requires forall k | 0 <= k < j :: s[k] == front[k]
    requires forall k | j <= k < |front| :: s[k + 1] == front[k]
    ensures s == front[..j] + [value] + front[j..]
  {
    forall k | j < k < |s| ensures s[k] == front[j..][k - j - 1] {
      assert s[k - 1 + 1] == front[k - 1];
    }
  }

  /** The inner loop: a[i] is inserted into the sorted a[..i]. */
  method InsertInPlace<T>(a: array<T>, less: (T, T) -> bool, i: nat)
    requires i < a.Length
    modifies a
    ensures a[..i + 1] == Insert(less, old(a[..i]), old(a[i]))
    ensures forall k | i < k < a.Length :: a[k] == old(a[k])
  {
    ghost var front := a[..i];
    var value := a[i];
    var j := i;
    while j > 0 && less(value, a[j - 1])
      invariant 0 <= j <= i
      invariant forall k | 0 <= k < j :: a[k] == front[k]
      invariant forall k | j <= k < i :: a[k + 1] == front[k]
      invariant forall k | j <= k < i :: less(value, front[k])
      invariant forall k | i < k < a.Length :: a[k] == old(a[k])
    {
      a[j] := a[j - 1];
      j := j - 1;
    }
    a[j] := value;
    InsertAt(less, front, value, j);
    Spliced(a[..i + 1], front, value, j);
  }

  method SortInPlace<T>(a: array<T>, less: (T, T) -> bool)
    modifies a
    ensures a[..] == InsertionSort(less, old(a[..]))
  {
    ghost var was := a[..];
    assert a[..0] == [];
    for i := 0 to a.Length
      invariant a[..i] == InsertionSort(less, was[..i])
      invariant forall k | i <= k < a.Length :: a[k] == was[k]
    {
      assert was[..i + 1][..i] == was[..i];
      InsertInPlace(a, less, i);
    }
    assert a[..a.Length] == a[..] && was[..a.Length] == was;
  }

  // ---- uniqueInts ----

  function Dedup(s: seq<int>): seq<int> {
    if |s| < 2 then s
    else if s[|s| - 1] == s[|s| - 2] then Dedup(s[..|s| - 1])
    else Dedup(s[..|s| - 1]) + [s[|s| - 1]]
  }

  predicate Ascending(s: seq<int>) {
    forall i, j | 0 <= i < j < |s| :: s[i] < s[j]
  }

  predicate NonDecreasing(s: seq<int>) {
    forall i, j | 0 <= i < j < |s| :: s[i] <= s[j]
  }

  lemma {:induction false} DedupLast(s: seq<int>)
    requires s != []
    ensures Dedup(s) != [] && Dedup(s)[|Dedup(s)| - 1] == s[|s| - 1]
    ensures |Dedup(s)| <= |s|
  {
    if |s| < 2 {
    } else {
      DedupLast(s[..|s| - 1]);
    }
  }

  lemma {:induction false} DedupKeepsMembers(s: seq<int>, x: int)
    ensures x in Dedup(s) <==> x in s
  {
    if |s| < 2 {
    } else {
      var front, last := s[..|s| - 1], s[|s| - 1];
      DedupKeepsMembers(front, x);
      assert s == front + [last];
      assert x in s <==> x in front || x == last;
      assert front[|front| - 1] in front;
    }
  }

  lemma {:induction false} DedupAscends(s: seq<int>)
    requires NonDecreasing(s)
    ensures Ascending(Dedup(s))
  {
    if |s| < 2 {
    } else {
      var front := Dedup(s[..|s| - 1]);
      DedupAscends(s[..|s| - 1]);
      DedupLast(s[..|s| - 1]);
      assert s[|s| - 2] <= s[|s| - 1] && front[|front| - 1] == s[|s| - 2];
      forall i | 0 <= i < |front| ensures front[i] <= front[|front| - 1] {}
    }
  }

  /** On a sorted slice, uniqueInts keeps every value once. */
  lemma DedupIsSet(s: seq<int>)
    requires NonDecreasing(s)
    ensures Ascending(Dedup(s))
    ensures forall x :: x in Dedup(s) <==> x in s
  {
    DedupAscends(s);
    forall x ensures x in Dedup(s) <==> x in s {
      DedupKeepsMembers(s, x);
    }
  }

  method UniqueInPlace(a: array<int>) returns (length: nat)
    modifies a
    ensures length <= a.Length
    ensures a[..length] == Dedup(old(a[..]))
  {
    ghost var was := a[..];
    if a.Length < 2 {
      assert a[..a.Length] == was;
      return a.Length;
    }
    var write := 1;
    assert a[..1] == was[..1];
    for read := 1 to a.Length
      invariant 1 <= write <= read
      invariant a[..write] == Dedup(was[..read])
      invariant forall k | read <= k < a.Length :: a[k] == was[k]
    {
      DedupLast(was[..read]);
      assert was[..read + 1][..read] == was[..read];
      assert a[write - 1] == a[..write][write - 1] == was[read - 1];
      if a[read] != a[write - 1] {
        a[write] := a[read];
        write := write + 1;
      }
    }
    assert was[..a.Length] == was;
    return write;
  }

  // ---- Go's string order ----

  /** a < b on strings: the first difference decides, a proper prefix comes first. */
  predicate StringLess(a: string, b: string) {
    if b == [] then false
    else if a == [] then true
    else if a[0] != b[0] then a[0] < b[0]
    else StringLess(a[1..], b[1..])
  }

  lemma {:induction false} StringLessTotal(a: string, b: string)
    ensures StringLess(a, b) ==> !StringLess(b, a)
    ensures StringLess(a, b) || StringLess(b, a) || a == b
    ensures !StringLess(a, a)
  {
    if a == [] {
    } else if b == [] {
      StringLessTotal(a[1..], b);
    } else {
      StringLessTotal(a[1..], b[1..]);
      if a[0] == b[0] && a[1..] == b[1..] {
        assert a == [a[0]] + a[1..] && b == [b[0]] + b[1..];
      }
    }
  }

  lemma {:induction false} StringLessTransitive(a: string, b: string, c: string)
    requires StringLess(a, b) && StringLess(b, c)
    ensures StringLess(a, c)
  {
    if a == [] || a[0] != b[0] || b[0] != c[0] {
    } else {
      StringLessTransitive(a[1..], b[1..], c[1..]);
    }
  }

  /** The strings agree up to position k, where a ends or has the smaller character. */
  predicate FirstDifference(a: string, b: string, k: nat) {
    && k <= |a| && k < |b| && a[..k] == b[..k]
    && (k == |a| || a[k] < b[k])
  }

  /** What the order is, without following it character by character. */
  lemma {:induction false} StringLessMeans(a: string, b: string)
    ensures StringLess(a, b) <==> exists k: nat :: FirstDifference(a, b, k)
  {
    if a == [] || b == [] {
      assert b != [] ==> FirstDifference(a, b, 0);
    } else {
      StringLessMeans(a[1..], b[1..]);
      assert a == [a[0]] + a[1..] && b == [b[0]] + b[1..];
      if a[0] < b[0] {
        assert FirstDifference(a, b, 0);
      }
      if k: nat :| FirstDifference(a, b, k) {
        if k > 0 {
          assert a[..k][0] == b[..k][0];
          assert a[1..][..k - 1] == a[..k][1..] && b[1..][..k - 1] == b[..k][1..];
          assert FirstDifference(a[1..], b[1..], k - 1);
        }
      }
      if a[0] == b[0] && StringLess(a[1..], b[1..]) {
        var k: nat :| FirstDifference(a[1..], b[1..], k);
        assert a[..k + 1] == [a[0]] + a[1..][..k] && b[..k + 1] == [b[0]] + b[1..][..k];
        assert FirstDifference(a, b, k + 1);
      }
    }
  }
}
