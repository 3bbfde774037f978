/** The JavaScript array operations the core relies on, over Dafny sequences:
    Array.prototype.indexOf, splice(start, 1), and the "remove this child"
    step that three.js's Object3D.remove and the DOM's removeChild perform. */
module JsArrays {

  /** Array.prototype.indexOf: the first index holding x, or -1. */
  function IndexOf<T(==)>(s: seq<T>, x: T): (r: int)
    ensures -1 <= r < |s|
    ensures r == -1 <==> x !in s
    ensures r >= 0 ==> s[r] == x && x !in s[..r]
  {
    if |s| == 0 then -1
    else if s[0] == x then 0
    else
      var k := IndexOf(s[1..], x);
      assert s[1..][..if k < 0 then 0 else k] == s[1..if k < 0 then 1 else k + 1];
      if k < 0 then -1 else k + 1
  }

  /** The sequence without its element at index k. */
  function DropAt<T>(s: seq<T>, k: nat): (r: seq<T>)
    requires k < |s|
    ensures |r| == |s| - 1
    ensures forall i :: 0 <= i < k ==> r[i] == s[i]
    ensures forall i :: k <= i < |r| ==> r[i] == s[i + 1]
  {
    s[..k] + s[k + 1..]
  }

  /** What `a.splice(start, 1)` leaves in `a`: a negative start counts from
      the end (clamped at 0), a start past the end removes nothing. */
  function SpliceOne<T>(s: seq<T>, start: int): (r: seq<T>)
    ensures 0 <= start < |s| ==> r == s[..start] + s[start + 1..]
    ensures start >= |s| ==> r == s
    ensures -|s| <= start < 0 ==> r == s[..|s| + start] + s[|s| + start + 1..]
    ensures start < -|s| && |s| > 0 ==> r == s[1..]
    ensures |s| == 0 ==> r == []
  {
    var k := if start < 0 then Clamp(|s| + start, |s|) else Clamp(start, |s|);
    if k < |s| then DropAt(s, k) else s
  }

  function Clamp(k: int, n: nat): (r: nat)
    ensures r <= n
    ensures 0 <= k <= n ==> r == k
  {
    if k < 0 then 0 else if k > n then n else k
  }

  /** Removing the first occurrence of x, if there is one (three.js
      Object3D.remove, and removeChild of a child that is present). */
  function RemoveFirst<T(==)>(s: seq<T>, x: T): (r: seq<T>)
    ensures x in s ==> multiset(r) == multiset(s) - multiset{x}
    ensures x !in s ==> r == s
  {
    if x in s then
      var k := IndexOf(s, x);
      assert s == s[..k] + [x] + s[k + 1..];
      DropAt(s, k)
    else s
  }

  /** The elements of s that are not in xs, in order. */
  function Except<T(==)>(s: seq<T>, xs: set<T>): (r: seq<T>)
    ensures |r| <= |s|
    ensures forall i :: 0 <= i < |r| ==> r[i] !in xs
  {
    if |s| == 0 then []
    else if s[0] in xs then Except(s[1..], xs)
    else [s[0]] + Except(s[1..], xs)
  }

  /** An element survives the filter exactly when it occurs and is not
      filtered out. */
  lemma {:induction false} ExceptMember<T>(s: seq<T>, xs: set<T>, y: T)
    ensures y in Except(s, xs) <==> y in s && y !in xs
  {
    if |s| > 0 {
      ExceptMember(s[1..], xs, y);
      assert s == [s[0]] + s[1..];
    }
  }

  /** No element occurs twice. */
  predicate NoDup<T(==)>(s: seq<T>)
  {
    forall i, j :: 0 <= i < j < |s| ==> s[i] != s[j]
  }

  /** `splice(indexOf(x), 1)` removes the first x when x is present, and the
      last element when it is absent (indexOf gives -1). */
  lemma SpliceIndexOf<T>(s: seq<T>, x: T)
    ensures x in s ==> SpliceOne(s, IndexOf(s, x)) == RemoveFirst(s, x)
    ensures x !in s && |s| > 0 ==> SpliceOne(s, IndexOf(s, x)) == s[..|s| - 1]
    ensures x !in s && |s| == 0 ==> SpliceOne(s, IndexOf(s, x)) == []
  {
    if x !in s && |s| > 0 {
      assert DropAt(s, |s| - 1) == s[..|s| - 1];
    }
  }

  /** In a duplicate-free sequence, removing the first occurrence of x
      removes every occurrence of x. */
  lemma {:induction false} RemoveFirstIsExcept<T>(s: seq<T>, x: T)
    requires NoDup(s)
    ensures RemoveFirst(s, x) == Except(s, {x})
  {
    if |s| == 0 {
    } else if s[0] == x {
      assert x !in s[1..];
      ExceptAbsent(s[1..], {x});
      assert RemoveFirst(s, x) == s[1..];
    } else {
      assert NoDup(s[1..]);
      RemoveFirstIsExcept(s[1..], x);
      RemoveFirstCons(s, x);
    }
  }

  /** Removing x from a sequence that does not start with x keeps the head. */
  lemma RemoveFirstCons<T>(s: seq<T>, x: T)
    requires |s| > 0 && s[0] != x
    ensures RemoveFirst(s, x) == [s[0]] + RemoveFirst(s[1..], x)
  {
    if x in s {
      var k := IndexOf(s, x);
      var t := s[1..];
      assert t[..k - 1] == s[..k][1..];
      assert IndexOf(t, x) == k - 1;
      var a, b := DropAt(s, k), [s[0]] + DropAt(t, k - 1);
      assert |a| == |b|;
      forall i | 0 <= i < |a|
        ensures a[i] == b[i]
      {
        if 0 < i < k { assert b[i] == t[i - 1]; }
        else if k <= i { assert b[i] == t[i]; }
      }
      assert a == b;
    }
  }

  /** Removing the first occurrence keeps a sequence free of duplicates. */
  lemma RemoveFirstNoDup<T>(s: seq<T>, x: T)
    requires NoDup(s)
    ensures NoDup(RemoveFirst(s, x))
  {
    RemoveFirstIsExcept(s, x);
    ExceptNoDup(s, {x});
  }

  /** Filtering out elements that do not occur changes nothing. */
  lemma {:induction false} ExceptAbsent<T>(s: seq<T>, xs: set<T>)
    requires forall y :: y in xs ==> y !in s
    ensures Except(s, xs) == s
  {
    if |s| > 0 {
      assert s[0] in s;
      ExceptAbsent(s[1..], xs);
    }
  }

  /** Filtering out nothing changes nothing. */
  lemma {:induction false} ExceptNothing<T>(s: seq<T>)
    ensures Except(s, {}) == s
  {
    if |s| > 0 {
      ExceptNothing(s[1..]);
      assert s == [s[0]] + s[1..];
    }
  }

  /** Filtering out an element that does not occur changes nothing. */
  lemma {:induction false} ExceptMissing<T>(s: seq<T>, x: T)
    requires x !in s
    ensures Except(s, {x}) == s
  {
    if |s| > 0 {
      assert s[0] != x;
      ExceptMissing(s[1..], x);
      assert s == [s[0]] + s[1..];
    }
  }

  /** Filtering twice is filtering once by the union. */
  lemma {:induction false} ExceptExcept<T>(s: seq<T>, xs: set<T>, ys: set<T>)
    ensures Except(Except(s, xs), ys) == Except(s, xs + ys)
  {
    if |s| > 0 {
      ExceptExcept(s[1..], xs, ys);
    }
  }

  /** Three filters in a row are one filter by the union. */
  lemma ExceptThrice<T>(s: seq<T>, xs: set<T>, ys: set<T>, zs: set<T>)
    ensures Except(Except(Except(s, xs), ys), zs) == Except(s, xs + ys + zs)
  {
    ExceptExcept(s, xs, ys);
    ExceptExcept(s, xs + ys, zs);
  }

  /** Filtering keeps a sequence free of duplicates. */
  lemma {:induction false} ExceptNoDup<T>(s: seq<T>, xs: set<T>)
    requires NoDup(s)
    ensures NoDup(Except(s, xs))
  {
    if |s| > 0 {
      assert NoDup(s[1..]);
      ExceptNoDup(s[1..], xs);
      assert s[0] !in s[1..];
      ExceptMember(s[1..], xs, s[0]);
    }
  }

  /** Appending a new element keeps a sequence free of duplicates. */
  lemma AppendNoDup<T>(s: seq<T>, x: T)
    requires NoDup(s) && x !in s
    ensures NoDup(s + [x])
  {
  }
}
