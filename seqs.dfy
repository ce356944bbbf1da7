/** Queries over a collection held as a sequence of documents in natural (insertion) order:
    the first match of a filter, all matches of a filter, a sort on a timestamp, and the
    uniqueness of an index key. */
module Seqs {
  import opened Common

  /** `findOne(filter)` with no sort: the position of the first document that matches. */
  function FindFirst<T>(s: seq<T>, p: T -> bool): (r: Option<nat>)
    ensures r.Some? ==> r.value < |s| && p(s[r.value])
    ensures r.Some? ==> forall j :: 0 <= j < r.value ==> !p(s[j])
    ensures r.None? <==> forall j :: 0 <= j < |s| ==> !p(s[j])
  {
    if |s| == 0 then None
    else if p(s[0]) then Some(0)
    else match FindFirst(s[1..], p)
      case None => None
      case Some(k) => Some(k + 1)
  }

  /** Replacing one document by another that the filter judges the same way does not move
      the first match. */
  lemma {:induction false} FindFirstAfterUpdate<T>(s: seq<T>, p: T -> bool, i: nat, x: T)
    requires i < |s| && p(x) == p(s[i])
    ensures FindFirst(s[i := x], p) == FindFirst(s, p)
  {
    if i == 0 {
      assert s[i := x][1..] == s[1..];
    } else {
      FindFirstAfterUpdate(s[1..], p, i - 1, x);
      assert s[i := x][1..] == s[1..][i - 1 := x];
    }
  }

  /** `find(filter)`: every matching document, in natural order. */
  function Filter<T(!new)>(s: seq<T>, p: T -> bool): (r: seq<T>)
    ensures |r| <= |s|
    ensures forall x :: x in r ==> p(x)
    ensures forall x :: multiset(r)[x] == if p(x) then multiset(s)[x] else 0
  {
    if |s| == 0 then []
    else
      var rest := Filter(s[1..], p);
      assert s == [s[0]] + s[1..];
      if p(s[0]) then [s[0]] + rest else rest
  }

  /** Sorted on `key`, largest first: the order of `.sort({ createdAt: -1 })`. */
  ghost predicate Descending<T>(s: seq<T>, key: T -> int)
  {
    forall i, j :: 0 <= i < j < |s| ==> key(s[i]) >= key(s[j])
  }

  function InsertDescending<T>(x: T, s: seq<T>, key: T -> int): (r: seq<T>)
    requires Descending(s, key)
    ensures Descending(r, key)
    ensures multiset(r) == multiset(s) + multiset{x}
    ensures |r| == |s| + 1 && (r[0] == x || (|s| > 0 && r[0] == s[0]))
  {
    if |s| == 0 then [x]
    else if key(x) >= key(s[0]) then [x] + s
    else
      var rest := InsertDescending(x, s[1..], key);
      assert s == [s[0]] + s[1..];
      assert key(rest[0]) <= key(s[0]);
      [s[0]] + rest
  }

  /** Insertion sort, newest (largest key) first. */
  function SortDescending<T>(s: seq<T>, key: T -> int): (r: seq<T>)
    ensures Descending(r, key)
    ensures multiset(r) == multiset(s)
  {
    if |s| == 0 then []
    else
      assert s == [s[0]] + s[1..];
      InsertDescending(s[0], SortDescending(s[1..], key), key)
  }

  /** Some document of `s` already has index key `k`. */
  predicate Taken<T, K(==)>(s: seq<T>, key: T -> K, k: K)
  {
    exists i :: 0 <= i < |s| && key(s[i]) == k
  }

  /** Some document of `s` other than the one at position `i` has index key `k`. */
  predicate TakenElsewhere<T, K(==)>(s: seq<T>, i: nat, key: T -> K, k: K)
  {
    exists j :: 0 <= j < |s| && j != i && key(s[j]) == k
  }

  /** A unique index on `key` holds: no two documents share a key. */
  ghost predicate Unique<T, K>(s: seq<T>, key: T -> K)
  {
    forall i, j :: 0 <= i < |s| && 0 <= j < |s| && i != j ==> key(s[i]) != key(s[j])
  }

  lemma UniqueAppend<T, K>(s: seq<T>, key: T -> K, x: T)
    requires Unique(s, key) && !Taken(s, key, key(x))
    ensures Unique(s + [x], key)
  {
    var t := s + [x];
    forall i, j | 0 <= i < |t| && 0 <= j < |t| && i != j
      ensures key(t[i]) != key(t[j])
    {
      if i == |s| {
        assert key(s[j]) != key(x);
      } else if j == |s| {
        assert key(s[i]) != key(x);
      }
    }
  }

  lemma UniqueUpdate<T, K>(s: seq<T>, key: T -> K, i: nat, x: T)
    requires Unique(s, key) && i < |s| && !TakenElsewhere(s, i, key, key(x))
    ensures Unique(s[i := x], key)
  {
    var t := s[i := x];
    forall a, b | 0 <= a < |t| && 0 <= b < |t| && a != b
      ensures key(t[a]) != key(t[b])
    {
      if a == i {
        assert key(s[b]) != key(x);
      } else if b == i {
        assert key(s[a]) != key(x);
      }
    }
  }

  /** The collection after `findOneAndDelete` removed the document at position `i`. */
  function RemoveAt<T>(s: seq<T>, i: nat): (r: seq<T>)
    requires i < |s|
    ensures |r| == |s| - 1
    ensures forall k :: 0 <= k < i ==> r[k] == s[k]
    ensures forall k :: i <= k < |r| ==> r[k] == s[k + 1]
  {
    s[..i] + s[i + 1..]
  }

  lemma UniqueRemoveAt<T, K>(s: seq<T>, key: T -> K, i: nat)
    requires Unique(s, key) && i < |s|
    ensures Unique(RemoveAt(s, i), key)
  {
    var t := RemoveAt(s, i);
    forall a, b | 0 <= a < |t| && 0 <= b < |t| && a != b
      ensures key(t[a]) != key(t[b])
    {
      var a' := if a < i then a else a + 1;
      var b' := if b < i then b else b + 1;
      assert t[a] == s[a'] && t[b] == s[b'];
    }
  }

  /** Removing a document keeps every other document and adds none. */
  lemma RemoveAtKeepsOthers<T>(s: seq<T>, i: nat, x: T)
    requires i < |s|
    ensures x in RemoveAt(s, i) <==> exists k :: 0 <= k < |s| && k != i && s[k] == x
  {
    var t := RemoveAt(s, i);
    if x in t {
      var k :| 0 <= k < |t| && t[k] == x;
      if k < i { assert s[k] == x; } else { assert s[k + 1] == x; }
    }
    if exists k :: 0 <= k < |s| && k != i && s[k] == x {
      var k :| 0 <= k < |s| && k != i && s[k] == x;
      if k < i { assert t[k] == x; } else { assert t[k - 1] == x; }
    }
  }
}
