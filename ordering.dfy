/** The newest-first ordering of `update_log_page`:
    `imgs.sort(key=lambda o: o["LastModified"], reverse=True)`. Python's sort
    is stable, also with `reverse=True`: objects with equal timestamps keep
    their listing order. */
module Ordering {
  import opened S3Fake

  /** Non-increasing in `lastModified`. */
  ghost predicate Sorted(s: seq<StoredObject>)
  {
    forall i, j :: 0 <= i < j < |s| ==> s[i].lastModified >= s[j].lastModified
  }

  /** The objects of `s` stamped `v`, in their order in `s`. */
  function WithStamp(s: seq<StoredObject>, v: int): seq<StoredObject>
  {
    if s == [] then []
    else (if s[0].lastModified == v then [s[0]] else []) + WithStamp(s[1..], v)
  }

  lemma {:induction false} WithStampConcat(a: seq<StoredObject>, b: seq<StoredObject>, v: int)
    ensures WithStamp(a + b, v) == WithStamp(a, v) + WithStamp(b, v)
  {
    if a != [] {
      assert (a + b)[1..] == a[1..] + b;
      WithStampConcat(a[1..], b, v);
    } else {
      assert a + b == b;
    }
  }

  /** Where `x` goes in `t`: after every element, counted from the back, that
      is at least as new as `x`. */
  function InsertPos(t: seq<StoredObject>, x: StoredObject): (k: nat)
    ensures k <= |t|
    ensures forall i :: k <= i < |t| ==> t[i].lastModified < x.lastModified
    ensures k > 0 ==> t[k - 1].lastModified >= x.lastModified
  {
    if t == [] || t[|t| - 1].lastModified >= x.lastModified then |t|
    else InsertPos(t[..|t| - 1], x)
  }

  function Insert(t: seq<StoredObject>, x: StoredObject): seq<StoredObject>
  {
    var k := InsertPos(t, x);
    t[..k] + [x] + t[k..]
  }

  /** Stable newest-first insertion sort, the reference for the in-place sort. */
  function NewestFirst(s: seq<StoredObject>): seq<StoredObject>
  {
    if s == [] then [] else Insert(NewestFirst(s[..|s| - 1]), s[|s| - 1])
  }

  /** Element-wise view of `Insert`. */
  lemma InsertAt(t: seq<StoredObject>, x: StoredObject)
    ensures |Insert(t, x)| == |t| + 1
    ensures forall i :: 0 <= i < InsertPos(t, x) ==> Insert(t, x)[i] == t[i]
    ensures Insert(t, x)[InsertPos(t, x)] == x
    ensures forall i :: InsertPos(t, x) < i <= |t| ==> Insert(t, x)[i] == t[i - 1]
  {
  }

  lemma InsertPermutes(t: seq<StoredObject>, x: StoredObject)
    ensures multiset(Insert(t, x)) == multiset(t) + multiset{x}
    ensures |Insert(t, x)| == |t| + 1
  {
    var k := InsertPos(t, x);
    assert t == t[..k] + t[k..];
  }

  /** The sorted list is a permutation of its input. */
  lemma {:induction false} NewestFirstPermutes(s: seq<StoredObject>)
    ensures multiset(NewestFirst(s)) == multiset(s)
    ensures |NewestFirst(s)| == |s|
  {
    if s != [] {
      var n := |s| - 1;
      var t := NewestFirst(s[..n]);
      assert NewestFirst(s) == Insert(t, s[n]);
      assert multiset(t) == multiset(s[..n]) && |t| == n by {
        NewestFirstPermutes(s[..n]);
      }
      assert multiset(Insert(t, s[n])) == multiset(t) + multiset{s[n]} && |Insert(t, s[n])| == n + 1 by {
        InsertPermutes(t, s[n]);
      }
      MultisetSnoc(s);
    }
  }

  lemma MultisetSnoc(s: seq<StoredObject>)
    requires s != []
    ensures multiset(s) == multiset(s[..|s| - 1]) + multiset{s[|s| - 1]}
  {
    assert s == s[..|s| - 1] + [s[|s| - 1]];
  }

  lemma InsertSorted(t: seq<StoredObject>, x: StoredObject)
    requires Sorted(t)
    ensures Sorted(Insert(t, x))
  {
    var k := InsertPos(t, x);
    var r := Insert(t, x);
    InsertAt(t, x);
    forall i, j | 0 <= i < j < |r| ensures r[i].lastModified >= r[j].lastModified {
      if j < k {
        assert r[i] == t[i] && r[j] == t[j];
      } else if j == k {
        assert r[i] == t[i] && t[i].lastModified >= t[k - 1].lastModified;
      } else if i < k {
        assert r[i] == t[i] && r[j] == t[j - 1];
      } else if i == k {
        assert r[j] == t[j - 1];
      } else {
        assert r[i] == t[i - 1] && r[j] == t[j - 1];
      }
    }
  }

  /** The sorted list is newest first. */
  lemma {:induction false} NewestFirstSorted(s: seq<StoredObject>)
    ensures Sorted(NewestFirst(s))
  {
    if s != [] {
      NewestFirstSorted(s[..|s| - 1]);
      InsertSorted(NewestFirst(s[..|s| - 1]), s[|s| - 1]);
    }
  }

  /** Putting `x` in front of older objects only adds `x` to its own stamp. */
  lemma SpliceStable(lo: seq<StoredObject>, hi: seq<StoredObject>, x: StoredObject, v: int)
    requires forall i :: 0 <= i < |hi| ==> hi[i].lastModified < x.lastModified
    ensures WithStamp(lo + ([x] + hi), v) == WithStamp(lo + hi, v) + WithStamp([x], v)
  {
    WithStampConcat(lo, [x] + hi, v);
    WithStampConcat([x], hi, v);
    WithStampConcat(lo, hi, v);
    if x.lastModified == v {
      NoneStamped(hi, v);
    } else {
      assert WithStamp([x], v) == [] by {
        assert [x][1..] == [];
      }
    }
  }

  lemma InsertSplit(t: seq<StoredObject>, x: StoredObject)
    ensures t == t[..InsertPos(t, x)] + t[InsertPos(t, x)..]
    ensures Insert(t, x) == t[..InsertPos(t, x)] + ([x] + t[InsertPos(t, x)..])
    ensures forall i :: 0 <= i < |t[InsertPos(t, x)..]| ==> t[InsertPos(t, x)..][i].lastModified < x.lastModified
  {
  }

  lemma InsertStable(t: seq<StoredObject>, x: StoredObject, v: int)
    ensures WithStamp(Insert(t, x), v) == WithStamp(t, v) + WithStamp([x], v)
  {
    var k := InsertPos(t, x);
    InsertSplit(t, x);
    SpliceStable(t[..k], t[k..], x, v);
  }

  /** No object of `s` is stamped `v` when all of them are older than `v`. */
  lemma {:induction false} NoneStamped(s: seq<StoredObject>, v: int)
    requires forall i :: 0 <= i < |s| ==> s[i].lastModified < v
    ensures WithStamp(s, v) == []
  {
    if s != [] {
      NoneStamped(s[1..], v);
    }
  }

  /** Stability: for every timestamp, the objects carrying it come out in the
      order they went in. */
  lemma {:induction false} NewestFirstStable(s: seq<StoredObject>, v: int)
    ensures WithStamp(NewestFirst(s), v) == WithStamp(s, v)
  {
    if s != [] {
      var n := |s| - 1;
      NewestFirstStable(s[..n], v);
      InsertStable(NewestFirst(s[..n]), s[n], v);
      assert s == s[..n] + [s[n]];
      WithStampConcat(s[..n], [s[n]], v);
    }
  }

  /** `InsertPos` is the one place with nothing older before it and nothing
      at least as new after it. */
  lemma {:induction false} InsertPosIs(t: seq<StoredObject>, x: StoredObject, j: nat)
    requires j <= |t|
    requires forall k :: j <= k < |t| ==> t[k].lastModified < x.lastModified
    requires j == 0 || t[j - 1].lastModified >= x.lastModified
    ensures InsertPos(t, x) == j
  {
    if j < |t| {
      var n := |t| - 1;
      assert t[..n][..j] == t[..j];
      InsertPosIs(t[..n], x, j);
    }
  }

  /** A sequence that has `t`'s first `j` elements, then `x`, then the rest of
      `t` is `Insert(t, x)` when `j` is the insertion position. */
  lemma InsertFromParts(r: seq<StoredObject>, t: seq<StoredObject>, x: StoredObject, j: nat)
    requires j == InsertPos(t, x) && |r| == |t| + 1
    requires forall k :: 0 <= k < j ==> r[k] == t[k]
    requires r[j] == x
    requires forall k :: j < k < |r| ==> r[k] == t[k - 1]
    ensures r == Insert(t, x)
  {
    InsertAt(t, x);
  }

  /** An object newer than everything already sorted goes to the front. */
  lemma InsertNewest(t: seq<StoredObject>, x: StoredObject)
    requires forall i :: 0 <= i < |t| ==> t[i].lastModified < x.lastModified
    ensures Insert(t, x) == [x] + t
  {
    InsertPosIs(t, x, 0);
  }

  /** An object newer than everything before it in the listing comes first. */
  lemma NewestFirstAppendNewest(s: seq<StoredObject>, x: StoredObject)
    requires forall i :: 0 <= i < |s| ==> s[i].lastModified < x.lastModified
    ensures NewestFirst(s + [x]) == [x] + NewestFirst(s)
  {
    var t := NewestFirst(s);
    assert (s + [x])[..|s|] == s;
    NewestFirstPermutes(s);
    forall j | 0 <= j < |t| ensures t[j].lastModified < x.lastModified {
      assert t[j] in multiset(s);
    }
    InsertNewest(t, x);
  }

  /** Objects listed oldest first come out reversed. */
  lemma ThreeNewestFirst(a: StoredObject, b: StoredObject, c: StoredObject)
    requires a.lastModified < b.lastModified < c.lastModified
    ensures NewestFirst([a, b, c]) == [c, b, a]
  {
    assert NewestFirst([a]) == [a] by {
      assert [a][..0] == [];
    }
    assert NewestFirst([a, b]) == [b, a] by {
      assert [a] + [b] == [a, b];
      NewestFirstAppendNewest([a], b);
    }
    assert [a, b] + [c] == [a, b, c];
    NewestFirstAppendNewest([a, b], c);
  }

  /** One pass of the insertion sort: `a[i]` moves left past the strictly
      older entries of the sorted prefix `a[..i]`. */
  method InsertLast(a: array<StoredObject>, i: int)
    requires 0 <= i < a.Length
    modifies a
    ensures a[..i + 1] == Insert(old(a[..i]), old(a[i]))
    ensures forall k :: i < k < a.Length ==> a[k] == old(a[k])
  {
    ghost var t := a[..i];
    var x := a[i];
    var j := i;
    while j > 0 && a[j - 1].lastModified < x.lastModified
      invariant 0 <= j <= i
      invariant forall k :: 0 <= k < j ==> a[k] == t[k]
      invariant forall k :: j < k <= i ==> a[k] == t[k - 1]
      invariant forall k :: j <= k < i ==> t[k].lastModified < x.lastModified
      invariant forall k :: i < k < a.Length ==> a[k] == old(a[k])
    {
      a[j] := a[j - 1];
      j := j - 1;
    }
    a[j] := x;
    InsertPosIs(t, x, j);
    InsertFromParts(a[..i + 1], t, x, j);
  }

  /** `imgs.sort(key=..., reverse=True)` on the list, in place. */
  method SortNewestFirst(a: array<StoredObject>)
    modifies a
    ensures a[..] == NewestFirst(old(a[..]))
  {
    ghost var s := a[..];
    var i := 0;
    while i < a.Length
      invariant 0 <= i <= a.Length
      invariant a[..i] == NewestFirst(s[..i])
      invariant forall k :: i <= k < a.Length ==> a[k] == s[k]
    {
      InsertLast(a, i);
      assert s[..i + 1][..i] == s[..i];
      i := i + 1;
    }
    assert s[..a.Length] == s;
  }
}
