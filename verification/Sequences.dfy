/** Facts about sequences that several components share. */
module Sequences {

  function Last<T>(s: seq<T>): T
    requires s != []
  {
    s[|s| - 1]
  }

  function Front<T>(s: seq<T>): seq<T>
    requires s != []
  {
    s[..|s| - 1]
  }

  lemma FrontLast<T>(s: seq<T>)
    requires s != []
    ensures Front(s) + [Last(s)] == s
  {
  }

  lemma MultisetFront<T>(s: seq<T>)
    requires s != []
    ensures multiset(Front(s)) == multiset(s) - multiset{Last(s)}
  {
    FrontLast(s);
  }

  lemma Associative<T>(a: seq<T>, b: seq<T>, c: seq<T>)
    ensures a + b + c == a + (b + c)
  {
  }

  lemma SameLength<T>(p: seq<T>, q: seq<T>)
    requires multiset(p) == multiset(q)
    ensures |p| == |q|
  {
    assert |multiset(p)| == |p| && |multiset(q)| == |q|;
  }

  /** Taking the last element of one sequence out of a permutation of it. */
  lemma Locate<T>(p: seq<T>, q: seq<T>) returns (a: seq<T>, b: seq<T>)
    requires p != [] && multiset(p) == multiset(q)
    ensures q == a + [Last(p)] + b && multiset(Front(p)) == multiset(a + b)
  {
    assert Last(p) in multiset(q);
    var i :| 0 <= i < |q| && q[i] == Last(p);
    a, b := q[..i], q[i + 1..];
    assert q == a + [Last(p)] + b;
    MultisetFront(p);
    assert multiset(q) == multiset(a + b) + multiset{Last(p)};
  }

  lemma ListedOnce<T>(s: seq<T>, i: nat, j: nat)
    requires i < j < |s| && multiset(s)[s[i]] <= 1
    ensures s[i] != s[j]
  {
    var a, b := s[..i + 1], s[i + 1..];
    assert s == a + b;
    assert s[i] in a && s[j] in b;
    assert multiset(s)[s[i]] == multiset(a)[s[i]] + multiset(b)[s[i]];
  }

  /** The last `n` elements; a non-positive `n` means no bound. */
  function Keep<T>(s: seq<T>, n: int): (r: seq<T>)
    ensures n > 0 ==> |r| <= n
  {
    if n > 0 && |s| > n then s[|s| - n..] else s
  }

  /** `a` can be obtained from `b` by deleting elements. */
  ghost predicate Subsequence<T>(a: seq<T>, b: seq<T>) {
    if a == [] then true
    else if b == [] then false
    else (Last(a) == Last(b) && Subsequence(Front(a), Front(b))) || Subsequence(a, Front(b))
  }

  lemma SubsequenceExtend<T>(a: seq<T>, b: seq<T>, x: T)
    requires Subsequence(a, b)
    ensures Subsequence(a, b + [x]) && Subsequence(a + [x], b + [x])
  {
    assert Front(b + [x]) == b && Front(a + [x]) == a;
  }

  lemma {:induction false} SubsequenceTransitive<T>(a: seq<T>, b: seq<T>, c: seq<T>)
    requires Subsequence(a, b) && Subsequence(b, c)
    ensures Subsequence(a, c)
    decreases |b| + |c|
  {
    if a != [] {
      if Subsequence(b, Front(c)) {
        SubsequenceTransitive(a, b, Front(c));
      } else if Subsequence(a, Front(b)) {
        SubsequenceTransitive(a, Front(b), Front(c));
      } else {
        SubsequenceTransitive(Front(a), Front(b), Front(c));
      }
    }
  }

  function Elements<T>(s: seq<T>): set<T> {
    set x | x in s
  }

  ghost predicate Distinct<T>(s: seq<T>) {
    forall i, j :: 0 <= i < j < |s| ==> s[i] != s[j]
  }
}

/** The model of `sort.Slice`: it promises order and permutation, and no stability. */
module Sorting {

  ghost predicate SortedBy<T(!new)>(s: seq<T>, key: T -> int) {
    forall i, j :: 0 <= i < j < |s| ==> key(s[i]) <= key(s[j])
  }

  lemma InsertKeepsOrder<T(!new)>(r: seq<T>, key: T -> int, i: nat, x: T, q: seq<T>)
    requires SortedBy(r, key) && i <= |r| && |q| == |r| + 1
    requires forall k :: 0 <= k < i ==> key(r[k]) <= key(x)
    requires i < |r| ==> key(x) <= key(r[i])
    requires (forall k :: 0 <= k < i ==> q[k] == r[k]) && q[i] == x
    requires forall k :: i < k < |q| ==> q[k] == r[k - 1]
    ensures SortedBy(q, key)
  {
  }

  lemma InsertKeepsBag<T>(r: seq<T>, i: nat, x: T)
    requires i <= |r|
    ensures multiset(r[..i] + [x] + r[i..]) == multiset(r) + multiset{x}
  {
    assert r == r[..i] + r[i..];
  }

  method Insert<T(!new)>(r: seq<T>, key: T -> int, x: T) returns (q: seq<T>)
    requires SortedBy(r, key)
    ensures SortedBy(q, key) && multiset(q) == multiset(r) + multiset{x}
  {
    var i := 0;
    while i < |r| && key(r[i]) <= key(x)
      invariant 0 <= i <= |r|
      invariant forall k :: 0 <= k < i ==> key(r[k]) <= key(x)
    {
      i := i + 1;
    }
    q := r[..i] + [x] + r[i..];
    InsertKeepsOrder(r, key, i, x, q);
    InsertKeepsBag(r, i, x);
  }

  method Sort<T(!new)>(s: seq<T>, key: T -> int) returns (r: seq<T>)
    ensures SortedBy(r, key)
    ensures multiset(r) == multiset(s)
  {
    r := [];
    for n := 0 to |s|
      invariant SortedBy(r, key)
      invariant multiset(r) == multiset(s[..n])
    {
      r := Insert(r, key, s[n]);
      assert s[..n + 1] == s[..n] + [s[n]];
    }
    assert s[..|s|] == s;
  }
}
