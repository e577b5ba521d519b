/**
 * The sequence operations the request handlers are built from: filtering
 * (list comprehensions), first-match search and update (a `for` loop with
 * `break`), and counting by a string field (the report buckets).
 */
module Lists {
  import opened Wrappers

  /** The elements of `s` that satisfy `p`, in their original order. */
  function Filter<T(==,!new)>(s: seq<T>, p: T -> bool): (r: seq<T>)
    ensures |r| <= |s|
    ensures forall i :: 0 <= i < |r| ==> p(r[i])
    ensures forall x :: multiset(r)[x] == if p(x) then multiset(s)[x] else 0
  {
    if s == [] then []
    else
      var rest := Filter(s[1..], p);
      assert s == [s[0]] + s[1..];
      if p(s[0]) then [s[0]] + rest else rest
  }

  /** `r` can be obtained from `s` by deleting elements, keeping the order of the rest. */
  ghost predicate Subsequence<T>(r: seq<T>, s: seq<T>)
    decreases |s|
  {
    if r == [] then true
    else if s == [] then false
    else (r[0] == s[0] && Subsequence(r[1..], s[1..])) || Subsequence(r, s[1..])
  }

  /** A filter keeps the relative order of what it keeps. */
  lemma {:induction false} FilterIsSubsequence<T(!new)>(s: seq<T>, p: T -> bool)
    ensures Subsequence(Filter(s, p), s)
  {
    if s != [] {
      FilterIsSubsequence(s[1..], p);
      if !p(s[0]) {
        SubsequenceOfTail(Filter(s[1..], p), s);
      }
    }
  }

  /** A subsequence of the tail is a subsequence of the whole. */
  lemma SubsequenceOfTail<T>(r: seq<T>, s: seq<T>)
    requires s != [] && Subsequence(r, s[1..])
    ensures Subsequence(r, s)
  {
  }

  /** Position `i` holds the first element of `s` whose key is `k`. */
  ghost predicate IsFirstMatch<T>(s: seq<T>, key: T -> int, k: int, i: int) {
    0 <= i < |s| && key(s[i]) == k && forall j :: 0 <= j < i ==> key(s[j]) != k
  }

  /** The position of the first element whose key is `k`, if any. */
  function FirstIndex<T>(s: seq<T>, key: T -> int, k: int): (r: Option<nat>)
    ensures r.None? <==> forall i :: 0 <= i < |s| ==> key(s[i]) != k
    ensures r.Some? ==> IsFirstMatch(s, key, k, r.value)
  {
    if s == [] then None
    else if key(s[0]) == k then Some(0)
    else match FirstIndex(s[1..], key, k)
      case None => None
      case Some(j) => Some(j + 1)
  }

  /** There is at most one first match. */
  lemma FirstMatchUnique<T>(s: seq<T>, key: T -> int, k: int, i: int, j: int)
    requires IsFirstMatch(s, key, k, i) && IsFirstMatch(s, key, k, j)
    ensures i == j
  {
  }

  /** `s` with `f` applied to the first element whose key is `k`; unchanged when there is none. */
  function UpdateFirst<T>(s: seq<T>, key: T -> int, k: int, f: T -> T): (r: seq<T>)
    ensures |r| == |s|
    ensures forall i :: 0 <= i < |s| ==>
      r[i] == if IsFirstMatch(s, key, k, i) then f(s[i]) else s[i]
  {
    match FirstIndex(s, key, k)
    case None => s
    case Some(i) =>
      forall j | 0 <= j < |s| && IsFirstMatch(s, key, k, j) ensures j == i {
        FirstMatchUnique(s, key, k, i, j);
      }
      s[i := f(s[i])]
  }

  /** Ids equal to position + 1: what "id = current length + 1" produces when nothing is deleted. */
  ghost predicate Numbered<T>(s: seq<T>, key: T -> int) {
    forall i :: 0 <= i < |s| ==> key(s[i]) == i + 1
  }

  /** In a numbered collection the search for id `k` finds position `k - 1`, or nothing. */
  lemma NumberedFirstIndex<T>(s: seq<T>, key: T -> int, k: int)
    requires Numbered(s, key)
    ensures FirstIndex(s, key, k) == if 1 <= k <= |s| then Some(k - 1) else None
  {
    if 1 <= k <= |s| {
      assert key(s[k - 1]) == k;
    }
  }

  /** Appending the record numbered `|s| + 1` keeps the collection numbered. */
  lemma AppendNumbered<T>(s: seq<T>, x: T, key: T -> int)
    requires Numbered(s, key) && key(x) == |s| + 1
    ensures Numbered(s + [x], key)
  {
  }

  /** An update that does not touch the key keeps the collection numbered. */
  lemma UpdateFirstNumbered<T>(s: seq<T>, key: T -> int, k: int, f: T -> T)
    requires Numbered(s, key)
    requires forall x :: key(f(x)) == key(x)
    ensures Numbered(UpdateFirst(s, key, k, f), key)
  {
  }

  /** How many elements of `s` have `field` equal to `v`. */
  function Occurrences<T>(s: seq<T>, field: T -> string, v: string): (n: nat)
    ensures n <= |s|
  {
    if s == [] then 0
    else Occurrences(s[..|s| - 1], field, v) + (if field(s[|s| - 1]) == v then 1 else 0)
  }

  /** How many elements of `s` have `field` in `vs`. */
  function CountIn<T>(s: seq<T>, field: T -> string, vs: set<string>): (n: nat)
    ensures n <= |s|
  {
    if s == [] then 0
    else CountIn(s[..|s| - 1], field, vs) + (if field(s[|s| - 1]) in vs then 1 else 0)
  }

  /** Three distinct buckets together count exactly the elements whose value is one of their keys. */
  lemma {:induction false} BucketTotal<T>(s: seq<T>, field: T -> string, a: string, b: string, c: string)
    requires a != b && b != c && a != c
    ensures Occurrences(s, field, a) + Occurrences(s, field, b) + Occurrences(s, field, c)
         == CountIn(s, field, {a, b, c})
  {
    if s != [] {
      BucketTotal(s[..|s| - 1], field, a, b, c);
    }
  }

  /** An element whose value is not `v` does not change the count of `v`. */
  lemma OccurrencesAppendOther<T>(s: seq<T>, x: T, field: T -> string, v: string)
    requires field(x) != v
    ensures Occurrences(s + [x], field, v) == Occurrences(s, field, v)
  {
    assert (s + [x])[..|s|] == s;
  }
}
