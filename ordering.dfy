/** SQL `ORDER BY … LIMIT n` and Rust's stable `sort_by` + `truncate`.

    An ordering is given as a relation `le(a, b)`: "a may come before b".
    SQLite promises only that the rows come out ordered and that the first
    `n` of them are returned; the order among ties is unspecified, so the
    query contracts are stated with `IsTopK`, which every legal answer meets.
    `Sort` is one stable insertion sort that produces such an answer. */
module Ordering {
  ghost predicate TotalPreorder<T(!new)>(le: (T, T) -> bool) {
    (forall a, b :: le(a, b) || le(b, a)) &&
    (forall a, b, c :: le(a, b) && le(b, c) ==> le(a, c))
  }

  predicate Sorted<T>(s: seq<T>, le: (T, T) -> bool) {
    forall i, j :: 0 <= i < j < |s| ==> le(s[i], s[j])
  }

  /** Insert `x` before the first element it may precede (stable). */
  function Insert<T(!new)>(x: T, s: seq<T>, le: (T, T) -> bool): (r: seq<T>)
    requires TotalPreorder(le) && Sorted(s, le)
    ensures Sorted(r, le)
    ensures multiset(r) == multiset(s) + multiset{x}
    ensures r[0] == x || (|s| > 0 && r[0] == s[0])
  {
    if s == [] || le(x, s[0]) then [x] + s
    else
      var rest := Insert(x, s[1..], le);
      assert s == [s[0]] + s[1..];
      [s[0]] + rest
  }

  function Sort<T(!new)>(s: seq<T>, le: (T, T) -> bool): (r: seq<T>)
    requires TotalPreorder(le)
    ensures Sorted(r, le)
    ensures multiset(r) == multiset(s)
    ensures |r| == |s|
  {
    if s == [] then []
    else
      assert s == [s[0]] + s[1..];
      Insert(s[0], Sort(s[1..], le), le)
  }

  /** `LIMIT n` / `Vec::truncate(n)`. */
  function Take<T>(s: seq<T>, n: nat): (r: seq<T>)
    ensures |r| == if n < |s| then n else |s|
    ensures r <= s
  {
    if n < |s| then s[..n] else s
  }

  /** `r` is a legal answer to "`all` ordered by `le`, first `k` rows":
      the right number of rows, drawn from `all`, in order, and nothing
      left out that had to come before the last row returned. */
  ghost predicate IsTopK<T(!new)>(r: seq<T>, all: seq<T>, k: nat, le: (T, T) -> bool) {
    |r| == (if k < |all| then k else |all|) &&
    multiset(r) <= multiset(all) &&
    Sorted(r, le) &&
    forall x :: x in multiset(all) - multiset(r) ==> |r| == 0 || le(r[|r| - 1], x)
  }

  /** Whatever a sorted sequence leaves out after its first `k` rows may
      come after the last row taken. */
  lemma LeftOutComesAfter<T(!new)>(s: seq<T>, k: nat, le: (T, T) -> bool, x: T)
    requires Sorted(s, le) && 0 < k < |s|
    requires x in multiset(s) - multiset(s[..k])
    ensures le(s[k - 1], x)
  {
    assert s == s[..k] + s[k..];
    assert multiset(s) == multiset(s[..k]) + multiset(s[k..]);
    assert x in s[k..];
    var j :| 0 <= j < |s[k..]| && s[k..][j] == x;
    assert s[k + j] == x;
  }

  /** The first `k` rows of the sorted sequence are a legal top-`k` answer. */
  lemma TakeSortIsTopK<T(!new)>(all: seq<T>, k: nat, le: (T, T) -> bool)
    requires TotalPreorder(le)
    ensures IsTopK(Take(Sort(all, le), k), all, k, le)
  {
    var s := Sort(all, le);
    var r := Take(s, k);
    if k < |s| {
      assert s == r + s[k..];
      assert multiset(s) == multiset(r) + multiset(s[k..]);
      if k > 0 {
        forall x | x in multiset(all) - multiset(r)
          ensures le(r[|r| - 1], x)
        {
          LeftOutComesAfter(s, k, le, x);
        }
      }
    }
  }
}
