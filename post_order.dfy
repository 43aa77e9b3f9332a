/**
 * `posts.sort((a, b) => b.id - a.id)`: the posts screen orders its state array by id,
 * highest first, in place.
 */
module PostOrder {
  import opened Remote

  /** Ids never increase from one post to the next. */
  ghost predicate IdsNonIncreasing(s: seq<Post>)
  {
    forall i, j :: 0 <= i < j < |s| ==> s[i].id >= s[j].id
  }

  /** No two posts share an id (the API's ids are unique). */
  ghost predicate DistinctIds(s: seq<Post>)
  {
    forall i, j :: 0 <= i < j < |s| ==> s[i].id != s[j].id
  }

  /**
   * With distinct ids there is only one order that is sorted by id, highest first: the
   * sorted array, and so every page shown, depends only on which posts were fetched.
   */
  lemma {:induction false} SortedOrderIsUnique(a: seq<Post>, b: seq<Post>)
    requires IdsNonIncreasing(a) && IdsNonIncreasing(b)
    requires multiset(a) == multiset(b)
    requires DistinctIds(a)
    ensures a == b
    decreases |a|
  {
    assert |a| == |multiset(a)| == |multiset(b)| == |b|;
    if a != [] {
      SortedHeadsAgree(a, b);
      TailsAgree(a, b);
      assert DistinctIds(a[1..]) && IdsNonIncreasing(a[1..]) && IdsNonIncreasing(b[1..]);
      SortedOrderIsUnique(a[1..], b[1..]);
      assert a == [a[0]] + a[1..] && b == [b[0]] + b[1..];
    }
  }

  /** Both sorted lists start with the post of highest id, which distinct ids make unique. */
  lemma SortedHeadsAgree(a: seq<Post>, b: seq<Post>)
    requires |a| > 0 && |b| > 0
    requires IdsNonIncreasing(a) && IdsNonIncreasing(b)
    requires multiset(a) == multiset(b)
    requires DistinctIds(a)
    ensures a[0] == b[0]
  {
    assert a[0] in multiset(b) && b[0] in multiset(a);
    var k :| 0 <= k < |b| && b[k] == a[0];
    var m :| 0 <= m < |a| && a[m] == b[0];
    assert a[0].id >= a[m].id && b[0].id >= b[k].id;
    assert m == 0;
  }

  /** Removing the same first post from two permutations leaves two permutations. */
  lemma TailsAgree(a: seq<Post>, b: seq<Post>)
    requires |a| > 0 && |b| > 0 && a[0] == b[0]
    requires multiset(a) == multiset(b)
    ensures multiset(a[1..]) == multiset(b[1..])
  {
    assert a == [a[0]] + a[1..] && b == [b[0]] + b[1..];
    forall p ensures multiset(a[1..])[p] == multiset(b[1..])[p] {
      assert multiset(a)[p] == multiset{a[0]}[p] + multiset(a[1..])[p];
      assert multiset(b)[p] == multiset{a[0]}[p] + multiset(b[1..])[p];
    }
  }

  /** The first `n` posts of `a` are in non-increasing id order. */
  ghost predicate SortedPrefix(a: array<Post>, n: int)
    reads a
  {
    forall k, l :: 0 <= k < l < n && l < a.Length ==> a[k].id >= a[l].id
  }

  method Swap(a: array<Post>, i: int, j: int)
    requires 0 <= i < a.Length && 0 <= j < a.Length
    modifies a
    ensures a[i] == old(a[j]) && a[j] == old(a[i])
    ensures forall k :: 0 <= k < a.Length && k != i && k != j ==> a[k] == old(a[k])
    ensures multiset(a[..]) == multiset(old(a[..]))
  {
    a[i], a[j] := a[j], a[i];
  }

  /**
   * Insertion sort by adjacent swaps. A post moves left only past posts with a strictly
   * smaller id, so posts with equal ids keep their order, as in the engine's stable sort.
   */
  method SortByIdDescending(a: array<Post>)
    modifies a
    ensures IdsNonIncreasing(a[..])
    ensures multiset(a[..]) == multiset(old(a[..]))
  {
    var i := 0;
    while i < a.Length
      invariant 0 <= i <= a.Length
      invariant SortedPrefix(a, i)
      invariant multiset(a[..]) == multiset(old(a[..]))
    {
      InsertIntoPrefix(a, i);
      i := i + 1;
    }
  }

  /** Moves `a[i]` left into the sorted prefix `a[..i]`, leaving `a[..i + 1]` sorted. */
  method InsertIntoPrefix(a: array<Post>, i: int)
    requires 0 <= i < a.Length
    requires SortedPrefix(a, i)
    modifies a
    ensures SortedPrefix(a, i + 1)
    ensures forall k :: i < k < a.Length ==> a[k] == old(a[k])
    ensures multiset(a[..]) == multiset(old(a[..]))
  {
    var j := i;
    while j > 0 && a[j - 1].id < a[j].id
      invariant 0 <= j <= i
      invariant forall k, l :: 0 <= k < l <= i && k != j && l != j ==> a[k].id >= a[l].id
      invariant forall l :: j < l <= i ==> a[j].id > a[l].id
      invariant forall k :: i < k < a.Length ==> a[k] == old(a[k])
      invariant multiset(a[..]) == multiset(old(a[..]))
    {
      Swap(a, j - 1, j);
      j := j - 1;
    }
  }
}
