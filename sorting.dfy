/** Python's `sorted` as test_main.py uses it: on the column maxima (reals), and
    on a set of column names (strings, compared code point by code point). */
module Sorting {

  // ---------------------------------------------------------------------------
  // reals

  ghost predicate Ascending(s: seq<real>) {
    forall i, j :: 0 <= i < j < |s| ==> s[i] <= s[j]
  }

  /** The number of elements of `s` that are at least `v`. */
  function CountAtLeast(s: seq<real>, v: real): nat {
    if s == [] then 0 else (if s[0] >= v then 1 else 0) + CountAtLeast(s[1..], v)
  }

  /** The number of elements of `s` that are strictly greater than `v`. */
  function CountAbove(s: seq<real>, v: real): nat {
    if s == [] then 0 else (if s[0] > v then 1 else 0) + CountAbove(s[1..], v)
  }

  function Insert(x: real, s: seq<real>): (r: seq<real>)
    ensures |r| == |s| + 1
    ensures forall y :: y in r <==> y == x || y in s
    ensures Ascending(s) ==> Ascending(r)
  {
    if s == [] || x <= s[0] then [x] + s
    else
      var rest := Insert(x, s[1..]);
      assert Ascending(s) ==> Ascending([s[0]] + rest) by {
        if Ascending(s) {
          assert Ascending(s[1..]) by {
            forall i, j | 0 <= i < j < |s| - 1 ensures s[1..][i] <= s[1..][j] {
              assert s[1..][i] == s[i + 1] && s[1..][j] == s[j + 1];
            }
          }
          forall j | 0 < j < |rest| + 1 ensures s[0] <= ([s[0]] + rest)[j] {
            var y := rest[j - 1];
            assert y in rest;
            if y != x {
              var k :| 0 <= k < |s[1..]| && s[1..][k] == y;
              assert s[k + 1] == y;
            }
          }
        }
      }
      [s[0]] + rest
  }

  /** `sorted(s)`: ascending order. */
  function Sort(s: seq<real>): (r: seq<real>)
    ensures |r| == |s|
    ensures forall y :: y in r <==> y in s
    ensures Ascending(r)
  {
    if s == [] then [] else Insert(s[0], Sort(s[1..]))
  }

  lemma {:induction false} InsertCounts(x: real, s: seq<real>, v: real)
    ensures CountAtLeast(Insert(x, s), v) == CountAtLeast(s, v) + (if x >= v then 1 else 0)
    ensures CountAbove(Insert(x, s), v) == CountAbove(s, v) + (if x > v then 1 else 0)
    decreases |s|
  {
    if s == [] || x <= s[0] {
      assert ([x] + s)[1..] == s;
    } else {
      InsertCounts(x, s[1..], v);
      assert ([s[0]] + Insert(x, s[1..]))[1..] == Insert(x, s[1..]);
    }
  }

  /** Sorting does not change how many elements lie at or above any value. */
  lemma {:induction false} SortCounts(s: seq<real>, v: real)
    ensures CountAtLeast(Sort(s), v) == CountAtLeast(s, v)
    ensures CountAbove(Sort(s), v) == CountAbove(s, v)
    decreases |s|
  {
    if s != [] {
      SortCounts(s[1..], v);
      InsertCounts(s[0], Sort(s[1..]), v);
    }
  }

  /** `sorted(s)[-k]`: the k-th largest element, counting repeats. */
  function KthLargest(s: seq<real>, k: nat): real
    requires 1 <= k <= |s|
  {
    Sort(s)[|s| - k]
  }

  lemma {:induction false} CountSuffix(t: seq<real>, j: nat, v: real)
    requires j <= |t|
    requires forall i :: j <= i < |t| ==> t[i] >= v
    ensures CountAtLeast(t, v) >= |t| - j
    decreases |t|
  {
    if t != [] {
      CountSuffix(t[1..], if j == 0 then 0 else j - 1, v);
    }
  }

  lemma {:induction false} CountPrefix(t: seq<real>, j: nat, v: real)
    requires j <= |t|
    requires forall i :: 0 <= i < j ==> t[i] <= v
    ensures CountAbove(t, v) <= |t| - j
    decreases |t|
  {
    if t != [] {
      CountPrefix(t[1..], if j == 0 then 0 else j - 1, v);
    }
  }

  /** The k-th largest element occurs in `s`; at least k elements are at or above
      it, and fewer than k are strictly above it. */
  lemma KthLargestRank(s: seq<real>, k: nat)
    requires 1 <= k <= |s|
    ensures KthLargest(s, k) in s
    ensures CountAtLeast(s, KthLargest(s, k)) >= k
    ensures CountAbove(s, KthLargest(s, k)) < k
  {
    var t := Sort(s);
    var j := |s| - k;
    var v := t[j];
    assert t[j] in t;
    SortedRank(t, j);
    SortCounts(s, v);
  }

  /** In an ascending list, the element at `j` has the |t| - j elements from `j` on
      at or above it, and at most the |t| - j - 1 after it strictly above it. */
  lemma SortedRank(t: seq<real>, j: nat)
    requires Ascending(t) && j < |t|
    ensures CountAtLeast(t, t[j]) >= |t| - j
    ensures CountAbove(t, t[j]) <= |t| - j - 1
  {
    var v := t[j];
    forall i | j <= i < |t| ensures t[i] >= v {
      assert t[j] <= t[i] || i == j;
    }
    CountSuffix(t, j, v);
    forall i | 0 <= i < j + 1 ensures t[i] <= v {
      assert t[i] <= t[j] || i == j;
    }
    CountPrefix(t, j + 1, v);
  }

  /** Every element above `w` is at least `v` when `w < v`: counting is monotone. */
  lemma {:induction false} CountMonotone(s: seq<real>, w: real, v: real)
    requires w < v
    ensures CountAbove(s, w) >= CountAtLeast(s, v)
    decreases |s|
  {
    if s != [] {
      CountMonotone(s[1..], w, v);
    }
  }

  /** The rank conditions determine the k-th largest element: a value with at least
      k elements at or above it and fewer than k strictly above it is that element. */
  lemma KthLargestUnique(s: seq<real>, k: nat, w: real)
    requires 1 <= k <= |s|
    requires CountAtLeast(s, w) >= k && CountAbove(s, w) < k
    ensures w == KthLargest(s, k)
  {
    var v := KthLargest(s, k);
    KthLargestRank(s, k);
    if w < v {
      CountMonotone(s, w, v);
    } else if v < w {
      CountMonotone(s, v, w);
    }
  }

  /** A value is at least the k-th largest exactly when fewer than k elements
      are strictly greater than it. */
  lemma AtLeastKthLargest(s: seq<real>, k: nat, x: real)
    requires 1 <= k <= |s|
    ensures x >= KthLargest(s, k) <==> CountAbove(s, x) < k
  {
    var v := KthLargest(s, k);
    KthLargestRank(s, k);
    if x >= v {
      AboveShrinks(s, v, x);
    } else {
      CountMonotone(s, x, v);
    }
  }

  lemma {:induction false} AboveShrinks(s: seq<real>, v: real, x: real)
    requires v <= x
    ensures CountAbove(s, x) <= CountAbove(s, v)
    decreases |s|
  {
    if s != [] {
      AboveShrinks(s[1..], v, x);
    }
  }

  // ---------------------------------------------------------------------------
  // strings

  /** Python's `a < b` on strings: lexicographic by code point, a proper prefix first. */
  predicate Less(a: string, b: string)
    decreases |a|
  {
    if a == [] then b != []
    else b != [] && (a[0] < b[0] || (a[0] == b[0] && Less(a[1..], b[1..])))
  }

  lemma {:induction false} LessIrreflexive(a: string)
    ensures !Less(a, a)
    decreases |a|
  {
    if a != [] {
      LessIrreflexive(a[1..]);
    }
  }

  lemma {:induction false} LessTotal(a: string, b: string)
    ensures a == b || Less(a, b) || Less(b, a)
    decreases |a|
  {
    if a != [] && b != [] && a[0] == b[0] {
      LessTotal(a[1..], b[1..]);
      if a[1..] == b[1..] {
        assert a == [a[0]] + a[1..] && b == [b[0]] + b[1..];
      }
    }
  }

  lemma {:induction false} LessTransitive(a: string, b: string, c: string)
    requires Less(a, b) && Less(b, c)
    ensures Less(a, c)
    decreases |a|
  {
    if a != [] && a[0] == b[0] && b[0] == c[0] {
      LessTransitive(a[1..], b[1..], c[1..]);
    }
  }

  ghost predicate StrictlyAscending(s: seq<string>) {
    forall i, j :: 0 <= i < j < |s| ==> Less(s[i], s[j])
  }

  /** Insert `x` into an ascending list of distinct names, unless it is there. */
  function InsertName(x: string, s: seq<string>): (r: seq<string>)
    ensures forall y :: y in r <==> y == x || y in s
    ensures StrictlyAscending(s) ==> StrictlyAscending(r)
  {
    if s == [] then [x]
    else if x == s[0] then s
    else if Less(x, s[0]) then
      assert StrictlyAscending(s) ==> StrictlyAscending([x] + s) by {
        if StrictlyAscending(s) {
          forall j | 0 < j < |s| + 1 ensures Less(x, ([x] + s)[j]) {
            if j > 1 {
              LessTransitive(x, s[0], s[j - 1]);
            }
          }
        }
      }
      [x] + s
    else
      var rest := InsertName(x, s[1..]);
      assert StrictlyAscending(s) ==> StrictlyAscending([s[0]] + rest) by {
        if StrictlyAscending(s) {
          LessTotal(x, s[0]);
          assert StrictlyAscending(s[1..]) by {
            forall i, j | 0 <= i < j < |s| - 1 ensures Less(s[1..][i], s[1..][j]) {
              assert s[1..][i] == s[i + 1] && s[1..][j] == s[j + 1];
            }
          }
          forall j | 0 < j < |rest| + 1 ensures Less(s[0], ([s[0]] + rest)[j]) {
            var y := rest[j - 1];
            assert y in rest;
            if y != x {
              var k :| 0 <= k < |s[1..]| && s[1..][k] == y;
              assert s[k + 1] == y;
            }
          }
        }
      }
      [s[0]] + rest
  }

  /** `sorted(set(xs))`: the distinct names of `xs`, ascending. */
  function SortedDistinct(xs: seq<string>): (r: seq<string>)
    ensures StrictlyAscending(r)
    ensures forall y :: y in r <==> y in xs
  {
    if xs == [] then [] else InsertName(xs[0], SortedDistinct(xs[1..]))
  }

  /** A strictly ascending list has no repeats. */
  lemma StrictlyAscendingDistinct(s: seq<string>)
    requires StrictlyAscending(s)
    ensures forall i, j :: 0 <= i < j < |s| ==> s[i] != s[j]
  {
    forall i, j | 0 <= i < j < |s| ensures s[i] != s[j] {
      LessIrreflexive(s[i]);
    }
  }
}
