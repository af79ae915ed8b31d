/**
 The re-sort of pending emerge requests done at the end of `thread_sync`:
 `BlockPositionComparator` orders block positions by ascending squared
 distance to the priority position. The engine's `SortArray` that applies it
 is not part of this model; `SortByDistance` is an insertion sort that meets
 the same contract (a permutation, ascending by distance, no stability
 promised or relied upon).
 */
module PriorityOrder {
  import opened Vectors

  /** `BlockPositionComparator::operator()`: `a` strictly closer to `center` than `b`. */
  predicate Closer(center: Vector3i, a: Vector3i, b: Vector3i)
  {
    DistanceSq(a, center) < DistanceSq(b, center)
  }

  /**
   The comparator is a strict weak ordering, as a sort requires of it: no
   position is closer than itself, closeness is transitive, and positions
   that are mutually not closer (equally far away) form classes.
   */
  lemma CloserIsStrictWeakOrder(center: Vector3i, a: Vector3i, b: Vector3i, c: Vector3i)
    ensures !Closer(center, a, a)
    ensures Closer(center, a, b) ==> !Closer(center, b, a)
    ensures Closer(center, a, b) && Closer(center, b, c) ==> Closer(center, a, c)
    ensures !Closer(center, a, b) && !Closer(center, b, a) && !Closer(center, b, c) && !Closer(center, c, b)
      ==> !Closer(center, a, c) && !Closer(center, c, a)
  {
  }

  /** No element is strictly closer to `center` than an element placed before it. */
  predicate SortedByDistance(s: seq<Vector3i>, center: Vector3i)
  {
    forall i, j :: 0 <= i < j < |s| ==> !Closer(center, s[j], s[i])
  }

  /** Every element of `s` is at least as far from `center` as `d`. */
  predicate AllAtLeast(s: seq<Vector3i>, center: Vector3i, d: int)
  {
    forall i :: 0 <= i < |s| ==> d <= DistanceSq(s[i], center)
  }

  /** Inserts `p` in front of the first element that is not closer than it. */
  function Insert(p: Vector3i, s: seq<Vector3i>, center: Vector3i): seq<Vector3i>
  {
    if s == [] || !Closer(center, s[0], p) then [p] + s
    else [s[0]] + Insert(p, s[1..], center)
  }

  /** Insertion adds `p` and keeps every other element. */
  lemma {:induction false} InsertPermutes(p: Vector3i, s: seq<Vector3i>, center: Vector3i)
    ensures multiset(Insert(p, s, center)) == multiset(s) + multiset{p}
  {
    if s != [] && Closer(center, s[0], p) {
      InsertPermutes(p, s[1..], center);
      assert s == [s[0]] + s[1..];
    }
  }

  /** A lower bound on the distance shared by `p` and every element of `s` holds after insertion. */
  lemma {:induction false} InsertAtLeast(p: Vector3i, s: seq<Vector3i>, center: Vector3i, d: int)
    requires AllAtLeast(s, center, d) && d <= DistanceSq(p, center)
    ensures AllAtLeast(Insert(p, s, center), center, d)
  {
    if s != [] && Closer(center, s[0], p) {
      InsertAtLeast(p, s[1..], center, d);
    }
  }

  /** Insertion into a sorted sequence keeps it sorted. */
  lemma {:induction false} InsertSorted(p: Vector3i, s: seq<Vector3i>, center: Vector3i)
    requires SortedByDistance(s, center)
    ensures SortedByDistance(Insert(p, s, center), center)
  {
    if s != [] && Closer(center, s[0], p) {
      InsertSorted(p, s[1..], center);
      InsertAtLeast(p, s[1..], center, DistanceSq(s[0], center));
    }
  }

  /** A sorted sequence with one element taken out is still sorted. */
  lemma RemoveKeepsSorted(b: seq<Vector3i>, j: int, center: Vector3i)
    requires SortedByDistance(b, center) && 0 <= j < |b|
    ensures SortedByDistance(b[..j] + b[j + 1..], center)
  {
    var rest := b[..j] + b[j + 1..];
    forall p, q | 0 <= p < q < |rest|
      ensures !Closer(center, rest[q], rest[p])
    {
      var p', q' := if p < j then p else p + 1, if q < j then q else q + 1;
      assert rest[p] == b[p'] && rest[q] == b[q'];
    }
  }

  /**
   In a sorted sequence whose element `j` is as close as its head, every
   element up to `j` is equally far away.
   */
  lemma SortedPlateau(b: seq<Vector3i>, j: int, center: Vector3i)
    requires SortedByDistance(b, center) && 0 <= j < |b|
    requires DistanceSq(b[j], center) == DistanceSq(b[0], center)
    ensures forall i :: 0 <= i <= j ==> DistanceSq(b[i], center) == DistanceSq(b[0], center)
  {
    forall i | 0 < i <= j
      ensures DistanceSq(b[i], center) == DistanceSq(b[0], center)
    {
      assert !Closer(center, b[i], b[0]);
      assert i == j || !Closer(center, b[j], b[i]);
    }
  }

  /** Taking the head of `a` out of a permutation `b` of it leaves a permutation of the tail. */
  lemma RemoveMatching(a: seq<Vector3i>, b: seq<Vector3i>, j: int)
    requires multiset(a) == multiset(b) && a != [] && 0 <= j < |b| && b[j] == a[0]
    ensures multiset(b[..j] + b[j + 1..]) == multiset(a[1..])
  {
    var rest, tail, e := multiset(b[..j] + b[j + 1..]), multiset(a[1..]), multiset{a[0]};
    assert b == b[..j] + [b[j]] + b[j + 1..];
    assert multiset(b) == multiset(b[..j]) + e + multiset(b[j + 1..]);
    assert rest == multiset(b[..j]) + multiset(b[j + 1..]);
    assert a == [a[0]] + a[1..];
    assert multiset(a) == e + tail;
    forall c ensures rest[c] == tail[c] {
      assert rest[c] + e[c] == multiset(b)[c] == multiset(a)[c] == e[c] + tail[c];
    }
  }

  /**
   Two sorted arrangements of the same requests agree on the distance at
   every position: they differ at most by the order of requests that are
   equally far away.
   */
  lemma {:induction false} SortedPermutationsAgree(a: seq<Vector3i>, b: seq<Vector3i>, center: Vector3i)
    requires SortedByDistance(a, center) && SortedByDistance(b, center)
    requires multiset(a) == multiset(b)
    ensures |a| == |b|
    ensures forall i :: 0 <= i < |a| ==> DistanceSq(a[i], center) == DistanceSq(b[i], center)
    decreases |a|
  {
    assert |a| == |multiset(a)| == |multiset(b)| == |b|;
    if a != [] {
      assert a[0] in multiset(b) && b[0] in multiset(a);
      var j :| 0 <= j < |b| && b[j] == a[0];
      var k :| 0 <= k < |a| && a[k] == b[0];
      assert !Closer(center, a[k], a[0]) || k == 0;
      assert !Closer(center, b[j], b[0]) || j == 0;
      SortedPlateau(b, j, center);
      var rest := b[..j] + b[j + 1..];
      RemoveMatching(a, b, j);
      RemoveKeepsSorted(b, j, center);
      SortedPermutationsAgree(a[1..], rest, center);
      forall i | 1 <= i < |a|
        ensures DistanceSq(a[i], center) == DistanceSq(b[i], center)
      {
        assert a[i] == a[1..][i - 1];
        if i - 1 < j {
          assert rest[i - 1] == b[i - 1];
        } else {
          assert rest[i - 1] == b[i];
        }
      }
    }
  }

  /**
   Sorts `s` by ascending distance to `center`. Re-sorting a sorted
   sequence keeps the distance at every position, so it moves requests only
   among equally distant ones.
   */
  method SortByDistance(s: seq<Vector3i>, center: Vector3i) returns (r: seq<Vector3i>)
    ensures SortedByDistance(r, center)
    ensures multiset(r) == multiset(s)
    ensures SortedByDistance(s, center) ==>
      |r| == |s| && forall i :: 0 <= i < |s| ==> DistanceSq(r[i], center) == DistanceSq(s[i], center)
  {
    r := [];
    for i := 0 to |s|
      invariant SortedByDistance(r, center)
      invariant multiset(r) == multiset(s[..i])
    {
      assert s[..i + 1] == s[..i] + [s[i]];
      InsertSorted(s[i], r, center);
      InsertPermutes(s[i], r, center);
      r := Insert(s[i], r, center);
    }
    assert s[..|s|] == s;
    if SortedByDistance(s, center) {
      SortedPermutationsAgree(r, s, center);
    }
  }
}
