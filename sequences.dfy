/** Order-preserving filtering and a stable insertion sort over a caller-supplied
    "less than or equal" test. Both the database's `ORDER BY` on stock lots and
    the browser's `Array.prototype.sort` (stable since ES2019) are modelled by `Sort`. */
module Sequences {

  /** The elements of `s` that satisfy `p`, in their original order. */
  function Filter<T(!new)>(s: seq<T>, p: T -> bool): (r: seq<T>)
    ensures |r| <= |s|
    ensures forall x :: x in r <==> x in s && p(x)
    ensures multiset(r) <= multiset(s)
  {
    if s == [] then []
    else
      assert s == [s[0]] + s[1..];
      if p(s[0]) then [s[0]] + Filter(s[1..], p) else Filter(s[1..], p)
  }

  /** The positions in `s` of the elements that satisfy `p`, in order. */
  function Positions<T>(s: seq<T>, p: T -> bool): (r: seq<int>)
    ensures forall j | 0 <= j < |r| :: 0 <= r[j] < |s|
  {
    if s == [] then []
    else
      var rest := Positions(s[1..], p);
      var shifted := seq(|rest|, j requires 0 <= j < |rest| => rest[j] + 1);
      if p(s[0]) then [0] + shifted else shifted
  }

  /** The `j`-th element the filter keeps sits at the `j`-th position. */
  lemma {:induction false} PositionsLocate<T(!new)>(s: seq<T>, p: T -> bool)
    ensures |Positions(s, p)| == |Filter(s, p)|
    ensures forall j | 0 <= j < |Positions(s, p)| :: s[Positions(s, p)[j]] == Filter(s, p)[j]
  {
    if s != [] {
      PositionsLocate(s[1..], p);
      var rest := Positions(s[1..], p);
      var f := Filter(s[1..], p);
      var idx := Positions(s, p);
      var all := Filter(s, p);
      var d := if p(s[0]) then 1 else 0;
      assert all == (if p(s[0]) then [s[0]] + f else f);
      assert |idx| == |rest| + d && |all| == |f| + d;
      forall j | d <= j < |idx| ensures s[idx[j]] == all[j] {
        assert idx[j] == rest[j - d] + 1 && all[j] == f[j - d];
        assert s[rest[j - d] + 1] == s[1..][rest[j - d]];
      }
    }
  }

  /** Puts `x` in front of the first element it is not greater than, so `x` stays
      ahead of every element that compares equal to it. */
  function Insert<T>(x: T, s: seq<T>, le: (T, T) -> bool): (r: seq<T>)
    ensures multiset(r) == multiset(s) + multiset{x}
  {
    if s == [] || le(x, s[0]) then [x] + s
    else
      assert s == [s[0]] + s[1..];
      [s[0]] + Insert(x, s[1..], le)
  }

  /** Stable insertion sort: elements that compare equal keep their input order. */
  function Sort<T>(s: seq<T>, le: (T, T) -> bool): (r: seq<T>)
    ensures multiset(r) == multiset(s)
  {
    if s == [] then []
    else
      assert s == [s[0]] + s[1..];
      Insert(s[0], Sort(s[1..], le), le)
  }

  ghost predicate Sorted<T>(s: seq<T>, le: (T, T) -> bool) {
    forall i, j | 0 <= i < j < |s| :: le(s[i], s[j])
  }

  /** `le` is total and transitive on the elements of `s` (it need not be elsewhere). */
  ghost predicate TotalPreorderOn<T>(le: (T, T) -> bool, s: seq<T>) {
    && (forall a, b | a in s && b in s :: le(a, b) || le(b, a))
    && (forall a, b, c | a in s && b in s && c in s :: le(a, b) && le(b, c) ==> le(a, c))
  }

  lemma {:induction false} InsertSorted<T>(x: T, s: seq<T>, le: (T, T) -> bool)
    requires Sorted(s, le)
    requires TotalPreorderOn(le, [x] + s)
    ensures Sorted(Insert(x, s, le), le)
  {
    if s == [] || le(x, s[0]) {
      var r := [x] + s;
      forall i, j | 0 <= i < j < |r| ensures le(r[i], r[j]) {
        if i == 0 && j > 1 {
          assert r[j] == s[j - 1] && s[0] in [x] + s && r[j] in [x] + s;
        }
      }
    } else {
      assert s[0] in [x] + s;
      assert le(s[0], x);
      var rest := Insert(x, s[1..], le);
      forall a, b | a in [x] + s[1..] && b in [x] + s[1..] ensures le(a, b) || le(b, a) {
        assert a in [x] + s && b in [x] + s;
      }
      forall a, b, c | a in [x] + s[1..] && b in [x] + s[1..] && c in [x] + s[1..]
        ensures le(a, b) && le(b, c) ==> le(a, c)
      {
        assert a in [x] + s && b in [x] + s && c in [x] + s;
      }
      InsertSorted(x, s[1..], le);
      var r := [s[0]] + rest;
      forall j | 0 < j < |r| ensures le(r[0], r[j]) {
        var y := r[j];
        assert y in multiset(rest);
        assert y in multiset(s[1..]) || y == x;
        if y != x {
          assert y in s[1..];
          var k :| 0 <= k < |s[1..]| && s[1..][k] == y;
          assert s[k + 1] == y;
        }
      }
    }
  }

  /** Sorting with a comparison that is a total preorder on the input yields an ordered result. */
  lemma {:induction false} SortSorted<T>(s: seq<T>, le: (T, T) -> bool)
    requires TotalPreorderOn(le, s)
    ensures Sorted(Sort(s, le), le)
  {
    if s != [] {
      var rest := Sort(s[1..], le);
      assert forall y :: y in s[1..] ==> y in s;
      SortSorted(s[1..], le);
      forall y | y in [s[0]] + rest ensures y in s {
        if y != s[0] {
          assert y in multiset(rest);
          assert y in multiset(s[1..]);
        }
      }
      InsertSorted(s[0], rest, le);
    }
  }

  /** Dropping the element at `i` removes one copy of it. */
  lemma MultisetRemove<T>(s: seq<T>, i: int)
    requires 0 <= i < |s|
    ensures multiset(s[..i] + s[i + 1..]) == multiset(s) - multiset{s[i]}
  {
    assert s == s[..i] + [s[i]] + s[i + 1..];
  }

  /** Two sequences holding the same elements still do once the first element of one and
      a copy of it in the other are dropped. */
  lemma PermutationTail<T>(a: seq<T>, b: seq<T>) returns (i: int)
    requires multiset(a) == multiset(b) && a != []
    ensures 0 <= i < |b| && b[i] == a[0]
    ensures multiset(a[1..]) == multiset(b[..i] + b[i + 1..])
  {
    assert a[0] in b by {
      assert a[0] in multiset(a);
    }
    i :| 0 <= i < |b| && b[i] == a[0];
    var rest := b[..i] + b[i + 1..];
    assert multiset(rest) == multiset(b) - multiset{a[0]} by {
      MultisetRemove(b, i);
    }
    assert multiset(a[1..]) == multiset(a) - multiset{a[0]} by {
      assert a == [a[0]] + a[1..];
    }
  }

  /** An element found at two positions is counted at least twice. */
  lemma TwoCopies<T>(s: seq<T>, i: int, j: int)
    requires 0 <= i < j < |s| && s[i] == s[j]
    ensures multiset(s)[s[i]] >= 2
  {
    assert s == s[..j] + s[j..];
    assert s[i] in s[..j];
    assert s[j] in s[j..];
  }
}
