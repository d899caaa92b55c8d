/**
 * The LINQ operators the quiz queries use: `Where` (filter, order kept) and
 * `OrderBy` (a sort by a total preorder), and the ordinal string order that
 * `OrderBy` on a name compares collation keys with.
 */
module Collections {

  /** `Where(p)`: the elements satisfying `p`, in their original order. */
  function Where<T(!new)>(s: seq<T>, p: T -> bool): (r: seq<T>)
    ensures |r| <= |s|
    ensures forall i :: 0 <= i < |r| ==> p(r[i])
    ensures forall x :: x in r <==> x in s && p(x)
  {
    if |s| == 0 then []
    else
      var rest := Where(s[1..], p);
      if p(s[0]) then [s[0]] + rest else rest
  }

  /** Each element passing the filter keeps its multiplicity; the others vanish. */
  lemma {:induction false} WhereCounts<T(!new)>(s: seq<T>, p: T -> bool)
    ensures forall x :: multiset(Where(s, p))[x] == if p(x) then multiset(s)[x] else 0
    decreases |s|
  {
    if |s| > 0 {
      assert s == [s[0]] + s[1..];
      WhereCounts(s[1..], p);
    }
  }

  lemma {:induction false} WhereAppend<T(!new)>(a: seq<T>, b: seq<T>, p: T -> bool)
    ensures Where(a + b, p) == Where(a, p) + Where(b, p)
    decreases |a|
  {
    if |a| == 0 {
      assert a + b == b;
    } else {
      assert (a + b)[1..] == a[1..] + b;
      WhereAppend(a[1..], b, p);
    }
  }

  /** Filtering keeps a sequence whose every element passes. */
  lemma {:induction false} WhereKeepsAll<T(!new)>(s: seq<T>, p: T -> bool)
    requires forall i :: 0 <= i < |s| ==> p(s[i])
    ensures Where(s, p) == s
    decreases |s|
  {
    if |s| > 0 {
      WhereKeepsAll(s[1..], p);
    }
  }

  /** Filtering drops a sequence whose every element fails. */
  lemma {:induction false} WhereDropsAll<T(!new)>(s: seq<T>, p: T -> bool)
    requires forall i :: 0 <= i < |s| ==> !p(s[i])
    ensures Where(s, p) == []
    decreases |s|
  {
    if |s| > 0 {
      WhereDropsAll(s[1..], p);
    }
  }

  /** `le` orders every pair and chains. */
  ghost predicate IsTotalPreorder<T(!new)>(le: (T, T) -> bool) {
    && (forall a, b :: le(a, b) || le(b, a))
    && (forall a, b, c :: le(a, b) && le(b, c) ==> le(a, c))
  }

  predicate SortedBy<T>(s: seq<T>, le: (T, T) -> bool) {
    forall i, j :: 0 <= i < j < |s| ==> le(s[i], s[j])
  }

  function InsertBy<T(!new)>(x: T, s: seq<T>, le: (T, T) -> bool): (r: seq<T>)
    requires IsTotalPreorder(le) && SortedBy(s, le)
    ensures multiset(r) == multiset(s) + multiset{x}
    ensures forall y :: y in r ==> y in s || y == x
    ensures SortedBy(r, le)
  {
    if |s| == 0 then [x]
    else if le(x, s[0]) then [x] + s
    else
      assert s == [s[0]] + s[1..];
      var rest := InsertBy(x, s[1..], le);
      assert forall y :: y in rest ==> le(s[0], y);
      [s[0]] + rest
  }

  /** `OrderBy`: the same elements, arranged by `le`. */
  function SortBy<T(!new)>(s: seq<T>, le: (T, T) -> bool): (r: seq<T>)
    requires IsTotalPreorder(le)
    ensures multiset(r) == multiset(s)
    ensures |r| == |s|
    ensures forall x :: x in r <==> x in s
    ensures SortedBy(r, le)
  {
    if |s| == 0 then []
    else
      assert s == [s[0]] + s[1..];
      var r := InsertBy(s[0], SortBy(s[1..], le), le);
      SameMultisetSameElements(r, s);
      r
  }

  lemma SameMultisetSameElements<T(!new)>(a: seq<T>, b: seq<T>)
    requires multiset(a) == multiset(b)
    ensures forall x :: x in a <==> x in b
  {
    forall x
      ensures x in a <==> x in b
    {
      assert x in a <==> x in multiset(a);
      assert x in b <==> x in multiset(b);
    }
  }

  /** Taking out the element at `k` takes one copy of it out of the multiset. */
  lemma RemoveAt<T>(s: seq<T>, k: nat)
    requires k < |s|
    ensures multiset(s) == multiset(s[..k] + s[k + 1..]) + multiset{s[k]}
  {
    assert s == s[..k] + [s[k]] + s[k + 1..];
  }

  lemma CancelOne<T>(x: multiset<T>, y: multiset<T>, z: T)
    requires x + multiset{z} == y + multiset{z}
    ensures x == y
  {
    assert x == (x + multiset{z}) - multiset{z};
    assert y == (y + multiset{z}) - multiset{z};
  }

  /** Taking the same position out of a sequence and of its images keeps them paired. */
  lemma RemoveAtKeepsImages<A, B>(b: seq<A>, fb: seq<B>, f: A -> B, k: nat)
    requires k < |b| && |fb| == |b| && forall i :: 0 <= i < |b| ==> fb[i] == f(b[i])
    ensures var b', fb' := b[..k] + b[k + 1..], fb[..k] + fb[k + 1..];
            |fb'| == |b'| && forall i :: 0 <= i < |b'| ==> fb'[i] == f(b'[i])
  {
    var b', fb' := b[..k] + b[k + 1..], fb[..k] + fb[k + 1..];
    forall i | 0 <= i < |b'|
      ensures fb'[i] == f(b'[i])
    {
      if i < k {
        assert fb'[i] == fb[i] && b'[i] == b[i];
      } else {
        assert fb'[i] == fb[i + 1] && b'[i] == b[i + 1];
      }
    }
  }

  /** Matching the first element of `a` with position `k` of `b` leaves two arrangements of the rest. */
  lemma MatchFirst<T>(a: seq<T>, b: seq<T>, k: nat)
    requires multiset(a) == multiset(b) && 0 < |a| && k < |b| && b[k] == a[0]
    ensures multiset(a[1..]) == multiset(b[..k] + b[k + 1..])
  {
    RemoveAt(a, 0);
    RemoveAt(b, k);
    assert a[..0] + a[1..] == a[1..];
    CancelOne(multiset(a[1..]), multiset(b[..k] + b[k + 1..]), a[0]);
  }

  /** Putting equal elements back in front of, and at position `k` of, two arrangements. */
  lemma RestoreMatch<T>(a: seq<T>, b: seq<T>, k: nat)
    requires 0 < |a| && k < |b| && b[k] == a[0]
    requires multiset(a[1..]) == multiset(b[..k] + b[k + 1..])
    ensures multiset(a) == multiset(b)
  {
    RemoveAt(a, 0);
    RemoveAt(b, k);
    assert a[..0] + a[1..] == a[1..];
  }

  /**
   * `Select(f)` commutes with rearranging: mapping two arrangements of the same
   * elements gives two arrangements of the same images.
   */
  lemma {:induction false} MapPreservesPermutation<A(!new), B(!new)>(a: seq<A>, b: seq<A>, fa: seq<B>, fb: seq<B>, f: A -> B)
    requires multiset(a) == multiset(b)
    requires |fa| == |a| && forall i :: 0 <= i < |a| ==> fa[i] == f(a[i])
    requires |fb| == |b| && forall i :: 0 <= i < |b| ==> fb[i] == f(b[i])
    ensures multiset(fa) == multiset(fb)
    decreases |a|
  {
    assert |a| == |multiset(a)| == |multiset(b)| == |b|;
    if |a| > 0 {
      assert a[0] in multiset(b);
      var k :| 0 <= k < |b| && b[k] == a[0];
      MatchFirst(a, b, k);
      RemoveAtKeepsImages(b, fb, f, k);
      MapPreservesPermutation(a[1..], b[..k] + b[k + 1..], fa[1..], fb[..k] + fb[k + 1..], f);
      RestoreMatch(fa, fb, k);
    }
  }

  /** Ordinal comparison of strings: a proper prefix comes first. */
  predicate LexLe(a: string, b: string)
    decreases |a|
  {
    |a| == 0 || (|b| > 0 && (a[0] < b[0] || (a[0] == b[0] && LexLe(a[1..], b[1..]))))
  }

  lemma {:induction false} LexLeTotal(a: string, b: string)
    ensures LexLe(a, b) || LexLe(b, a)
    decreases |a|
  {
    if |a| > 0 && |b| > 0 && a[0] == b[0] {
      LexLeTotal(a[1..], b[1..]);
    }
  }

  lemma {:induction false} LexLeTransitive(a: string, b: string, c: string)
    requires LexLe(a, b) && LexLe(b, c)
    ensures LexLe(a, c)
    decreases |a|
  {
    if |a| > 0 && a[0] == b[0] && b[0] == c[0] {
      LexLeTransitive(a[1..], b[1..], c[1..]);
    }
  }

  /** Comparing by the ordinal order of a key is a total preorder. */
  lemma KeyOrderIsTotalPreorder<T(!new)>(le: (T, T) -> bool, key: T -> string)
    requires forall a, b :: le(a, b) == LexLe(key(a), key(b))
    ensures IsTotalPreorder(le)
  {
    forall a: T, b: T
      ensures le(a, b) || le(b, a)
    {
      LexLeTotal(key(a), key(b));
    }
    forall a: T, b: T, c: T | le(a, b) && le(b, c)
      ensures le(a, c)
    {
      LexLeTransitive(key(a), key(b), key(c));
    }
  }
}
