/**
 * The collection operations Mongo performs on a collection held in natural
 * (insertion) order: find_one / update_one / delete_one act on the first
 * match, count_documents counts, find filters, and a cursor sorts, skips and
 * limits.
 */
module Seqs {
  import opened Base

  /** count_documents(filter). */
  function Count<T>(s: seq<T>, p: T -> bool): (n: nat)
    ensures n <= |s|
  {
    if s == [] then 0 else (if p(s[0]) then 1 else 0) + Count(s[1..], p)
  }

  /** find(filter) without sort, skip or limit: the matches in natural order. */
  function Filter<T>(s: seq<T>, p: T -> bool): (r: seq<T>)
    ensures |r| == Count(s, p)
    ensures forall i :: 0 <= i < |r| ==> p(r[i])
    ensures multiset(r) <= multiset(s)
    ensures forall i :: 0 <= i < |s| && p(s[i]) ==> s[i] in r
  {
    if s == [] then []
    else
      assert s == [s[0]] + s[1..];
      (if p(s[0]) then [s[0]] else []) + Filter(s[1..], p)
  }

  /** The position of the document that find_one / update_one / delete_one act on. */
  function IndexOf<T>(s: seq<T>, p: T -> bool): (r: Option<nat>)
    ensures r.Some? ==> r.value < |s| && p(s[r.value])
    ensures r.Some? ==> forall j :: 0 <= j < r.value ==> !p(s[j])
    ensures r.None? <==> forall j :: 0 <= j < |s| ==> !p(s[j])
  {
    if s == [] then None
    else if p(s[0]) then Some(0)
    else match IndexOf(s[1..], p)
      case None => None
      case Some(k) => Some(k + 1)
  }

  /** The first match is the one at k when nothing before k matches. */
  lemma {:induction false} IndexOfAt<T>(s: seq<T>, p: T -> bool, k: nat)
    requires k < |s| && p(s[k])
    requires forall j :: 0 <= j < k ==> !p(s[j])
    ensures IndexOf(s, p) == Some(k)
  {
    if k > 0 {
      IndexOfAt(s[1..], p, k - 1);
    }
  }

  /** find_one(filter). */
  function FindFirst<T>(s: seq<T>, p: T -> bool): (r: Option<T>)
    ensures r.Some? <==> exists i :: 0 <= i < |s| && p(s[i])
    ensures r.Some? ==> p(r.value) && r.value in s
  {
    match IndexOf(s, p)
    case None => None
    case Some(i) => Some(s[i])
  }

  /** The collection without the document at position i, the rest in order. */
  function RemoveAt<T>(s: seq<T>, i: nat): (r: seq<T>)
    requires i < |s|
    ensures |r| == |s| - 1
    ensures forall j :: 0 <= j < |r| ==> r[j] == s[if j < i then j else j + 1]
  {
    s[..i] + s[i + 1..]
  }

  /** delete_one(filter) removes the first match only. */
  function RemoveFirst<T>(s: seq<T>, p: T -> bool): (r: seq<T>)
    ensures IndexOf(s, p).None? ==> r == s
    ensures IndexOf(s, p).Some? ==> r == RemoveAt(s, IndexOf(s, p).value)
  {
    match IndexOf(s, p)
    case None => s
    case Some(i) => RemoveAt(s, i)
  }

  /** sum(f(x) for x in s). */
  function SumBy<T>(s: seq<T>, f: T -> real): real
  {
    if s == [] then 0.0 else f(s[0]) + SumBy(s[1..], f)
  }

  lemma {:induction false} CountConcat<T>(a: seq<T>, b: seq<T>, p: T -> bool)
    ensures Count(a + b, p) == Count(a, p) + Count(b, p)
  {
    if a == [] {
      assert a + b == b;
    } else {
      assert (a + b)[1..] == a[1..] + b;
      CountConcat(a[1..], b, p);
    }
  }

  lemma {:induction false} FilterConcat<T>(a: seq<T>, b: seq<T>, p: T -> bool)
    ensures Filter(a + b, p) == Filter(a, p) + Filter(b, p)
  {
    if a == [] {
      assert a + b == b;
    } else {
      assert (a + b)[1..] == a[1..] + b;
      FilterConcat(a[1..], b, p);
    }
  }

  lemma {:induction false} SumConcat<T>(a: seq<T>, b: seq<T>, f: T -> real)
    ensures SumBy(a + b, f) == SumBy(a, f) + SumBy(b, f)
  {
    if a == [] {
      assert a + b == b;
    } else {
      assert (a + b)[1..] == a[1..] + b;
      SumConcat(a[1..], b, f);
    }
  }

  /** The sum over the matches of a non-empty sequence, with its head split off. */
  lemma SumFilterHead<T>(s: seq<T>, p: T -> bool, f: T -> real)
    requires s != []
    ensures SumBy(Filter(s, p), f) == (if p(s[0]) then f(s[0]) else 0.0) + SumBy(Filter(s[1..], p), f)
  {
    var head := if p(s[0]) then [s[0]] else [];
    assert Filter(s, p) == head + Filter(s[1..], p);
    SumConcat(head, Filter(s[1..], p), f);
    if p(s[0]) {
      assert head[1..] == [];
    }
  }

  /** Replacing one element changes the sum by the difference. */
  lemma {:induction false} SumUpdate<T>(s: seq<T>, i: nat, x: T, f: T -> real)
    requires i < |s|
    ensures SumBy(s[i := x], f) == SumBy(s, f) - f(s[i]) + f(x)
  {
    if i == 0 {
      assert s[i := x][1..] == s[1..];
    } else {
      assert s[i := x][1..] == s[1..][i - 1 := x];
      SumUpdate(s[1..], i - 1, x, f);
    }
  }

  /** Appending one document changes a count by one exactly when it matches. */
  lemma CountAppend<T>(s: seq<T>, x: T, p: T -> bool)
    ensures Count(s + [x], p) == Count(s, p) + (if p(x) then 1 else 0)
  {
    CountConcat(s, [x], p);
    assert Count([x], p) == (if p(x) then 1 else 0) + Count([x][1..], p);
  }

  /** Replacing one document changes a count only through that document. */
  lemma CountUpdate<T>(s: seq<T>, i: nat, x: T, p: T -> bool)
    requires i < |s|
    ensures Count(s[i := x], p) + (if p(s[i]) then 1 else 0) == Count(s, p) + (if p(x) then 1 else 0)
  {
    assert s == s[..i] + [s[i]] + s[i + 1..];
    assert s[i := x] == s[..i] + [x] + s[i + 1..];
    CountConcat(s[..i] + [s[i]], s[i + 1..], p);
    CountConcat(s[..i] + [x], s[i + 1..], p);
    CountAppend(s[..i], s[i], p);
    CountAppend(s[..i], x, p);
  }

  lemma {:induction false} CountNone<T>(s: seq<T>, p: T -> bool)
    requires forall i :: 0 <= i < |s| ==> !p(s[i])
    ensures Count(s, p) == 0
  {
    if s != [] {
      CountNone(s[1..], p);
    }
  }

  /** Two disjoint filters that both imply a third count no more than it. */
  lemma {:induction false} CountDisjoint<T>(s: seq<T>, p: T -> bool, q: T -> bool, r: T -> bool)
    requires forall i :: 0 <= i < |s| ==> !(p(s[i]) && q(s[i]))
    requires forall i :: 0 <= i < |s| ==> (p(s[i]) || q(s[i])) ==> r(s[i])
    ensures Count(s, p) + Count(s, q) <= Count(s, r)
  {
    if s != [] {
      CountDisjoint(s[1..], p, q, r);
    }
  }

  /** Filtering with a predicate that agrees with another on s gives the same result. */
  lemma {:induction false} FilterSame<T>(s: seq<T>, p: T -> bool, q: T -> bool)
    requires forall i :: 0 <= i < |s| ==> p(s[i]) == q(s[i])
    ensures Filter(s, p) == Filter(s, q)
  {
    if s != [] {
      FilterSame(s[1..], p, q);
    }
  }

  /** A collection with a match counts at least one. */
  lemma {:induction false} CountPositive<T>(s: seq<T>, p: T -> bool, i: nat)
    requires i < |s| && p(s[i])
    ensures Count(s, p) >= 1
  {
    if i > 0 {
      CountPositive(s[1..], p, i - 1);
    }
  }

  /** Counting with a predicate that agrees with another on s gives the same number. */
  lemma {:induction false} CountSame<T>(s: seq<T>, p: T -> bool, q: T -> bool)
    requires forall i :: 0 <= i < |s| ==> p(s[i]) == q(s[i])
    ensures Count(s, p) == Count(s, q)
  {
    if s != [] {
      CountSame(s[1..], p, q);
    }
  }

  /** Filtering away only documents that p never matches leaves Count(_, p) unchanged. */
  lemma {:induction false} CountFilter<T>(s: seq<T>, q: T -> bool, p: T -> bool)
    requires forall i :: 0 <= i < |s| ==> p(s[i]) ==> q(s[i])
    ensures Count(Filter(s, q), p) == Count(s, p)
  {
    if s != [] {
      CountFilter(s[1..], q, p);
      var f := Filter(s, q);
      if q(s[0]) {
        assert f == [s[0]] + Filter(s[1..], q);
        assert f[0] == s[0] && f[1..] == Filter(s[1..], q);
      } else {
        assert f == Filter(s[1..], q);
      }
    }
  }

  /** Removing one document that p does not match leaves Count(_, p) unchanged. */
  lemma {:induction false} CountRemove<T>(s: seq<T>, i: nat, p: T -> bool)
    requires i < |s| && !p(s[i])
    ensures Count(s[..i] + s[i + 1..], p) == Count(s, p)
  {
    var t := s[..i] + s[i + 1..];
    if i == 0 {
      assert t == s[1..];
    } else {
      var tail := s[1..];
      CountRemove(tail, i - 1, p);
      assert t[0] == s[0];
      assert t[1..] == tail[..i - 1] + tail[i..];
    }
  }

  /** rel holds of every pair of documents in collection order. */
  predicate Pairwise<T>(s: seq<T>, rel: (T, T) -> bool)
  {
    forall k, l :: 0 <= k < l < |s| ==> rel(s[k], s[l])
  }

  /** find / delete_many keep the relative order, so a pairwise property survives them. */
  lemma {:induction false} FilterPairwise<T>(s: seq<T>, p: T -> bool, rel: (T, T) -> bool)
    requires Pairwise(s, rel)
    ensures Pairwise(Filter(s, p), rel)
  {
    if s != [] {
      var tail := s[1..];
      assert forall k, l :: 0 <= k < l < |tail| ==> tail[k] == s[k + 1] && tail[l] == s[l + 1];
      FilterPairwise(tail, p, rel);
      var t := Filter(tail, p);
      if p(s[0]) {
        var f := [s[0]] + t;
        assert Filter(s, p) == f;
        forall k, l | 0 <= k < l < |f|
          ensures rel(f[k], f[l])
        {
          if k == 0 {
            assert f[l] == t[l - 1];
            assert t[l - 1] in multiset(t);
            assert t[l - 1] in multiset(tail);
            assert t[l - 1] in tail;
            var j :| 0 <= j < |tail| && tail[j] == t[l - 1];
            assert rel(s[0], s[j + 1]);
          } else {
            assert f[k] == t[k - 1] && f[l] == t[l - 1];
          }
        }
      } else {
        assert Filter(s, p) == t;
      }
    }
  }

  predicate SortedDesc<T>(s: seq<T>, key: T -> int)
  {
    forall i, j :: 0 <= i < j < |s| ==> key(s[i]) >= key(s[j])
  }

  function InsertDesc<T>(x: T, s: seq<T>, key: T -> int): (r: seq<T>)
    requires SortedDesc(s, key)
    ensures |r| == |s| + 1
    ensures SortedDesc(r, key)
    ensures multiset(r) == multiset(s) + multiset{x}
    ensures r[0] == x || (|s| > 0 && r[0] == s[0])
  {
    if s == [] || key(x) >= key(s[0]) then
      ConsSorted(x, s, key);
      [x] + s
    else
      var rest := InsertDesc(x, s[1..], key);
      InsertBehind(x, s, rest, key);
      [s[0]] + rest
  }

  /** Putting the head of s back in front of x inserted into the rest of s. */
  lemma InsertBehind<T>(x: T, s: seq<T>, rest: seq<T>, key: T -> int)
    requires SortedDesc(s, key) && s != [] && key(x) < key(s[0])
    requires SortedDesc(rest, key)
    requires multiset(rest) == multiset(s[1..]) + multiset{x}
    requires rest[0] == x || (|s| > 1 && rest[0] == s[1])
    ensures SortedDesc([s[0]] + rest, key)
    ensures multiset([s[0]] + rest) == multiset(s) + multiset{x}
  {
    assert s == [s[0]] + s[1..];
    ConsSorted(s[0], rest, key);
  }

  /** A head no smaller than the first of a sorted sequence keeps it sorted. */
  lemma ConsSorted<T>(h: T, rest: seq<T>, key: T -> int)
    requires SortedDesc(rest, key)
    requires |rest| > 0 ==> key(rest[0]) <= key(h)
    ensures SortedDesc([h] + rest, key)
  {
    var r := [h] + rest;
    forall i, j | 0 <= i < j < |r| ensures key(r[i]) >= key(r[j]) {
      assert r[j] == rest[j - 1];
      if i == 0 {
        assert key(rest[0]) >= key(rest[j - 1]) || j == 1;
      } else {
        assert r[i] == rest[i - 1];
      }
    }
  }

  /** sort(key, -1): newest first; documents with equal keys keep natural order. */
  function SortDesc<T>(s: seq<T>, key: T -> int): (r: seq<T>)
    ensures SortedDesc(r, key)
    ensures multiset(r) == multiset(s)
  {
    if s == [] then []
    else
      assert s == [s[0]] + s[1..];
      InsertDesc(s[0], SortDesc(s[1..], key), key)
  }

  /** A pymongo cursor's .skip(skip).limit(limit) with skip >= 0: limit 0 means
      no limit and a negative limit returns at most |limit| documents. */
  function Page<T>(s: seq<T>, skip: nat, limit: int): (r: seq<T>)
    ensures skip >= |s| ==> r == []
    ensures limit != 0 ==> |r| <= (if limit < 0 then -limit else limit)
    ensures limit == 0 && skip <= |s| ==> |r| == |s| - skip
    ensures forall k :: 0 <= k < |r| ==> skip + k < |s| && r[k] == s[skip + k]
  {
    var rest := if skip <= |s| then s[skip..] else [];
    var cap := if limit < 0 then -limit else limit;
    if cap == 0 || cap >= |rest| then rest else rest[..cap]
  }

  /** Every document of a page of a sorted filter result comes from s and matches p. */
  lemma PageOfFilter<T>(s: seq<T>, p: T -> bool, sorted: seq<T>, r: seq<T>, skip: nat)
    requires multiset(sorted) == multiset(Filter(s, p))
    requires forall k :: 0 <= k < |r| ==> skip + k < |sorted| && r[k] == sorted[skip + k]
    ensures forall i :: 0 <= i < |r| ==> p(r[i]) && r[i] in s
  {
    var f := Filter(s, p);
    forall i | 0 <= i < |r|
      ensures p(r[i]) && r[i] in s
    {
      assert skip + i < |sorted| && r[i] == sorted[skip + i];
      assert sorted[skip + i] in multiset(sorted);
      assert r[i] in multiset(f);
      assert r[i] in f;
      var j :| 0 <= j < |f| && f[j] == r[i];
      assert r[i] in multiset(s);
    }
  }

  /** find(filter).sort(key, -1).skip(skip).limit(limit), as a service that
      catches pymongo's ValueError for a negative skip and returns []. */
  function Query<T>(s: seq<T>, p: T -> bool, key: T -> int, skip: int, limit: int): (r: seq<T>)
    ensures skip < 0 ==> r == []
    ensures forall i :: 0 <= i < |r| ==> p(r[i]) && r[i] in s
    ensures SortedDesc(r, key)
    ensures limit != 0 ==> |r| <= (if limit < 0 then -limit else limit)
    ensures skip == 0 && limit == 0 ==> multiset(r) == multiset(Filter(s, p))
  {
    if skip < 0 then []
    else
      var sorted := SortDesc(Filter(s, p), key);
      var r := Page(sorted, skip, limit);
      PageOfFilter(s, p, sorted, r, skip);
      assert skip == 0 && limit == 0 ==> r == sorted;
      r
  }

  /** Two collections of one length that agree wherever p holds in either have
      the same first match. */
  lemma {:induction false} SameMatches<T>(a: seq<T>, b: seq<T>, p: T -> bool)
    requires |a| == |b|
    requires forall k :: 0 <= k < |a| ==> p(a[k]) == p(b[k]) && (p(a[k]) ==> a[k] == b[k])
    ensures FindFirst(a, p) == FindFirst(b, p)
  {
    if a != [] {
      assert forall k :: 0 <= k < |a[1..]| ==> a[1..][k] == a[k + 1] && b[1..][k] == b[k + 1];
      SameMatches(a[1..], b[1..], p);
    }
  }

  /** Appending a document the filter does not match leaves find_one's answer. */
  lemma {:induction false} AppendUnmatched<T>(a: seq<T>, x: T, p: T -> bool)
    requires !p(x)
    ensures FindFirst(a + [x], p) == FindFirst(a, p)
  {
    if a != [] {
      assert (a + [x])[1..] == a[1..] + [x];
      AppendUnmatched(a[1..], x, p);
    } else {
      assert ([x])[1..] == [];
    }
  }
}
