/** List operations shared by the services: Python's `[x for x in s if keep(x)]`,
    the slice `s[:n]`, and a stable sort by a caller-supplied "comes no later
    than" relation, the shape of `list.sort(key=..., reverse=True)`, where
    elements whose keys tie keep their original relative order. */
module Lists {

  /** `r` is `s` with some elements left out and the rest in their original order. */
  predicate IsSubsequence<T(==)>(r: seq<T>, s: seq<T>)
    decreases |s|
  {
    if |r| == 0 then true
    else if |s| == 0 then false
    else if r[0] == s[0] then IsSubsequence(r[1..], s[1..])
    else IsSubsequence(r, s[1..])
  }

  /** `[x for x in s if keep(x)]`. */
  function Filter<T(==,!new)>(s: seq<T>, keep: T -> bool): (r: seq<T>)
    ensures forall x :: x in r <==> x in s && keep(x)
    ensures IsSubsequence(r, s)
    ensures |r| <= |s|
  {
    if |s| == 0 then []
    else if keep(s[0]) then [s[0]] + Filter(s[1..], keep)
    else
      var r := Filter(s[1..], keep);
      assert |r| > 0 ==> r[0] != s[0];
      r
  }

  /** Python's `s[:n]`, where a negative `n` drops that many elements from the end. */
  function PyTake<T>(s: seq<T>, n: int): (r: seq<T>)
    ensures r <= s
    ensures n >= 0 ==> |r| == if n < |s| then n else |s|
    ensures n < 0 ==> |r| == if |s| + n > 0 then |s| + n else 0
  {
    if n >= 0 then (if n < |s| then s[..n] else s)
    else if |s| + n > 0 then s[..|s| + n] else []
  }

  function Min(a: int, b: int): int { if a < b then a else b }

  function Max(a: int, b: int): int { if a < b then b else a }

  /** A filter that every element passes keeps the sequence as it is. */
  lemma {:induction false} FilterAll<T(!new)>(s: seq<T>, keep: T -> bool)
    requires forall x :: x in s ==> keep(x)
    ensures Filter(s, keep) == s
  {
    if |s| > 0 {
      assert forall x :: x in s[1..] ==> x in s;
      FilterAll(s[1..], keep);
    }
  }

  /** A prefix keeps its order inside the sequence it came from. */
  lemma {:induction false} PrefixIsSubsequence<T>(r: seq<T>, s: seq<T>)
    requires r <= s
    ensures IsSubsequence(r, s)
  {
    if |r| > 0 {
      assert r[0] == s[0] && r[1..] <= s[1..];
      PrefixIsSubsequence(r[1..], s[1..]);
    }
  }

  lemma {:induction false} SubsequenceTransitive<T>(a: seq<T>, b: seq<T>, c: seq<T>)
    requires IsSubsequence(a, b) && IsSubsequence(b, c)
    ensures IsSubsequence(a, c)
    decreases |c|
  {
    if |a| > 0 && |c| > 0 {
      if b[0] == c[0] {
        if a[0] == b[0] {
          SubsequenceTransitive(a[1..], b[1..], c[1..]);
        } else {
          SubsequenceTransitive(a, b[1..], c[1..]);
        }
      } else {
        SubsequenceTransitive(a, b, c[1..]);
        if a[0] == c[0] {
          SubsequenceDropFirst(a, c[1..]);
        }
      }
    }
  }

  lemma {:induction false} SubsequenceDropFirst<T>(a: seq<T>, s: seq<T>)
    requires |a| > 0 && IsSubsequence(a, s)
    ensures IsSubsequence(a[1..], s)
    decreases |s|, 1
  {
    if |a| > 1 {
      if a[0] == s[0] {
        SubsequenceWiden(a[1..], s);
      } else {
        SubsequenceDropFirst(a, s[1..]);
        SubsequenceWiden(a[1..], s);
      }
    }
  }

  lemma {:induction false} SubsequenceWiden<T>(x: seq<T>, s: seq<T>)
    requires |s| > 0 && IsSubsequence(x, s[1..])
    ensures IsSubsequence(x, s)
    decreases |s|, 0
  {
    if |x| > 0 && x[0] == s[0] {
      SubsequenceDropFirst(x, s[1..]);
    }
  }

  predicate NoDuplicates<T(==)>(s: seq<T>) {
    forall i, j :: 0 <= i < j < |s| ==> s[i] != s[j]
  }

  /** The distinct elements of `s`, each at its first position. */
  function Distinct<T(==,!new)>(s: seq<T>): (r: seq<T>)
    ensures NoDuplicates(r)
    ensures forall x :: x in r <==> x in s
  {
    if |s| == 0 then []
    else
      var rest := Distinct(s[1..]);
      if s[0] in s[1..] then rest else [s[0]] + rest
  }

  lemma {:induction false} NoDuplicatesCard<T>(s: seq<T>)
    requires NoDuplicates(s)
    ensures |set x | x in s| == |s|
  {
    if |s| > 0 {
      NoDuplicatesCard(s[1..]);
      assert (set x | x in s) == {s[0]} + (set x | x in s[1..]);
    }
  }

  /** Every two elements are comparable. */
  ghost predicate Total<T(!new)>(before: (T, T) -> bool) {
    forall a, b :: before(a, b) || before(b, a)
  }

  ghost predicate Transitive<T(!new)>(before: (T, T) -> bool) {
    forall a, b, c :: before(a, b) && before(b, c) ==> before(a, c)
  }

  /** No element is placed after one it should precede. */
  predicate Ordered<T>(s: seq<T>, before: (T, T) -> bool) {
    forall i, j :: 0 <= i < j < |s| ==> before(s[i], s[j])
  }

  /** A head that precedes every element of `tail` and `x` precedes every
      element of any rearrangement of them. */
  lemma HeadPrecedesAll<T>(h: T, x: T, tail: seq<T>, rest: seq<T>, before: (T, T) -> bool)
    requires forall j :: 0 <= j < |tail| ==> before(h, tail[j])
    requires before(h, x)
    requires multiset(rest) == multiset(tail) + multiset{x}
    ensures forall k :: 0 <= k < |rest| ==> before(h, rest[k])
  {
    forall k | 0 <= k < |rest|
      ensures before(h, rest[k])
    {
      assert rest[k] in multiset(rest);
      if rest[k] != x {
        assert rest[k] in multiset(tail);
        var j :| 0 <= j < |tail| && tail[j] == rest[k];
      }
    }
  }

  /** Places `x` in front of the first element it may precede; on a tie `x` goes first. */
  function Insert<T(!new)>(x: T, t: seq<T>, before: (T, T) -> bool): (r: seq<T>)
    requires Total(before) && Transitive(before)
    requires Ordered(t, before)
    ensures multiset(r) == multiset(t) + multiset{x}
    ensures |r| == |t| + 1
    ensures Ordered(r, before)
  {
    if |t| == 0 then [x]
    else if before(x, t[0]) then
      [x] + t
    else
      var rest := Insert(x, t[1..], before);
      assert t == [t[0]] + t[1..];
      HeadPrecedesAll(t[0], x, t[1..], rest, before);
      [t[0]] + rest
  }

  /** Insertion sort: the result is a permutation of `s` and is ordered. */
  function SortBy<T(!new)>(s: seq<T>, before: (T, T) -> bool): (r: seq<T>)
    requires Total(before) && Transitive(before)
    ensures multiset(r) == multiset(s)
    ensures |r| == |s|
    ensures Ordered(r, before)
  {
    if |s| == 0 then []
    else
      assert s == [s[0]] + s[1..];
      Insert(s[0], SortBy(s[1..], before), before)
  }

  /** A left fold: `a` updated by `f` with each element of `s` in turn, the
      shape of a `for` loop that rebinds one accumulator. */
  function FoldLeft<A, B>(f: (A, B) -> A, a: A, s: seq<B>): A
    decreases |s|
  {
    if |s| == 0 then a else FoldLeft(f, f(a, s[0]), s[1..])
  }

  /** The fold's last step reads the last element. */
  lemma {:induction false} FoldLeftLast<A, B>(f: (A, B) -> A, a: A, s: seq<B>)
    requires |s| > 0
    ensures FoldLeft(f, a, s) == f(FoldLeft(f, a, s[..|s| - 1]), s[|s| - 1])
    decreases |s|
  {
    if |s| > 1 {
      var init := s[..|s| - 1];
      FoldLeftLast(f, f(a, s[0]), s[1..]);
      assert s[1..][..|s| - 2] == init[1..];
    }
  }
}
