/** Generic sequence operations behind the `filter`, `slice` and `new Set` calls of the engine. */
module Collections {

  datatype Option<T> = None | Some(value: T)

  /** `a` is `b` with some elements left out, in the same order. */
  ghost predicate IsSubseq<T>(a: seq<T>, b: seq<T>)
    decreases |b|
  {
    if a == [] then true
    else if b == [] then false
    else (a[0] == b[0] && IsSubseq(a[1..], b[1..])) || IsSubseq(a, b[1..])
  }

  lemma {:induction false} IsSubseqRefl<T>(a: seq<T>)
    ensures IsSubseq(a, a)
    decreases |a|
  {
    if a != [] { IsSubseqRefl(a[1..]); }
  }

  /** Pairwise distinct elements. */
  ghost predicate NoDuplicates<T>(s: seq<T>)
  {
    forall i, j :: 0 <= i < j < |s| ==> s[i] != s[j]
  }

  /** Two duplicate-free sequences with no element in common concatenate to a duplicate-free one. */
  lemma NoDuplicatesConcat<T>(a: seq<T>, b: seq<T>)
    requires NoDuplicates(a) && NoDuplicates(b)
    requires forall x :: x in a ==> x !in b
    ensures NoDuplicates(a + b)
  {
    forall i, j | 0 <= i < j < |a + b| ensures (a + b)[i] != (a + b)[j] {
      if j < |a| {
      } else if i >= |a| {
        assert (a + b)[i] == b[i - |a|] && (a + b)[j] == b[j - |a|];
      } else {
        assert (a + b)[i] in a && (a + b)[j] in b;
      }
    }
  }

  /** `s.filter(f)`: the elements that satisfy `f`, in order. */
  function Filter<T(!new)>(s: seq<T>, f: T -> bool): (r: seq<T>)
    ensures |r| <= |s|
  {
    if s == [] then []
    else if f(s[0]) then [s[0]] + Filter(s[1..], f)
    else Filter(s[1..], f)
  }

  /** What `filter` keeps: exactly the elements that pass, as a subsequence. */
  lemma {:induction false} FilterSpec<T(!new)>(s: seq<T>, f: T -> bool)
    ensures forall x :: x in Filter(s, f) <==> x in s && f(x)
    ensures IsSubseq(Filter(s, f), s)
  {
    if s != [] {
      FilterSpec(s[1..], f);
      var rest := Filter(s[1..], f);
      assert forall x :: x in s <==> x == s[0] || x in s[1..] by {
        assert s == [s[0]] + s[1..];
      }
      if f(s[0]) {
        assert ([s[0]] + rest)[1..] == rest;
      }
    }
  }

  /** A test that every element passes keeps the whole sequence. */
  lemma {:induction false} FilterAll<T(!new)>(s: seq<T>, f: T -> bool)
    requires forall i :: 0 <= i < |s| ==> f(s[i])
    ensures Filter(s, f) == s
  {
    if s != [] {
      assert f(s[0]);
      FilterAll(s[1..], f);
    }
  }

  /** A test that no element passes keeps nothing. */
  lemma {:induction false} FilterNone<T(!new)>(s: seq<T>, f: T -> bool)
    requires forall i :: 0 <= i < |s| ==> !f(s[i])
    ensures Filter(s, f) == []
  {
    if s != [] {
      assert !f(s[0]);
      FilterNone(s[1..], f);
    }
  }

  /** The negation of a test. */
  function Not<T>(f: T -> bool): T -> bool
  {
    (x: T) => !f(x)
  }

  /** `s.filter(x => !f(x))`: the elements that fail `f`, in order. */
  function Reject<T(!new)>(s: seq<T>, f: T -> bool): (r: seq<T>)
    ensures |r| <= |s|
  {
    Filter(s, Not(f))
  }

  /** Filtering and rejecting by the same test split the sequence. */
  lemma {:induction false} FilterRejectSplit<T(!new)>(s: seq<T>, f: T -> bool)
    ensures |Filter(s, f)| + |Reject(s, f)| == |s|
  {
    if s != [] { FilterRejectSplit(s[1..], f); }
  }

  /** Filtering and rejecting by the same test share out the elements: together they hold each exactly as often as `s`. */
  lemma {:induction false} FilterRejectMultiset<T(!new)>(s: seq<T>, f: T -> bool)
    ensures multiset(Filter(s, f)) + multiset(Reject(s, f)) == multiset(s)
  {
    if s != [] {
      FilterRejectMultiset(s[1..], f);
      assert s == [s[0]] + s[1..];
    }
  }

  /** `s.slice(0, n)`. */
  function Take<T>(s: seq<T>, n: nat): (r: seq<T>)
    ensures |r| == if |s| <= n then |s| else n
    ensures r == s[..|r|]
  {
    if |s| <= n then s else s[..n]
  }

  /** `[...new Set(s)]`: first occurrences only, in order of appearance. */
  function Dedupe<T(==,!new)>(s: seq<T>): (r: seq<T>)
    ensures NoDuplicates(r)
    ensures forall x :: x in r <==> x in s
  {
    if s == [] then []
    else
      var d := Dedupe(s[..|s| - 1]);
      var x := s[|s| - 1];
      assert forall y :: y in s <==> y in s[..|s| - 1] || y == x by {
        assert s == s[..|s| - 1] + [x];
      }
      if x in d then d else d + [x]
  }

  /** The elements of `s` as a set. */
  function Elements<T(==)>(s: seq<T>): set<T>
  {
    set x | x in s
  }

  /** A sequence followed by itself has the same elements. */
  lemma ElementsTwice<T>(s: seq<T>)
    ensures Elements(s + s) == Elements(s)
  {
    assert forall x :: x in s + s <==> x in s;
  }

  /** There are never more distinct elements than elements. */
  lemma {:induction false} ElementsBound<T>(s: seq<T>)
    ensures |Elements(s)| <= |s|
    ensures NoDuplicates(s) ==> |Elements(s)| == |s|
  {
    if s != [] {
      var t := s[1..];
      ElementsBound(t);
      assert Elements(s) == Elements(t) + {s[0]};
      if NoDuplicates(s) {
        assert NoDuplicates(t) by {
          forall i, j | 0 <= i < j < |t| ensures t[i] != t[j] { assert t[i] == s[i + 1] && t[j] == s[j + 1]; }
        }
        assert s[0] !in Elements(t) by {
          forall i | 0 <= i < |t| ensures t[i] != s[0] { assert t[i] == s[i + 1]; }
        }
      }
    }
  }

  /** A subset has at most as many elements as its superset. */
  lemma SubsetCard<T>(a: set<T>, b: set<T>)
    requires a <= b
    ensures |a| <= |b|
  {
    if a != {} {
      var x :| x in a;
      SubsetCard(a - {x}, b - {x});
    }
  }

  /** Every element of a subsequence is an element of the whole. */
  lemma {:induction false} SubseqElements<T>(a: seq<T>, b: seq<T>)
    requires IsSubseq(a, b)
    ensures forall x :: x in a ==> x in b
    decreases |b|
  {
    if a != [] && b != [] {
      if a[0] == b[0] && IsSubseq(a[1..], b[1..]) {
        SubseqElements(a[1..], b[1..]);
        assert forall x :: x in a ==> x == a[0] || x in a[1..];
      } else {
        SubseqElements(a, b[1..]);
      }
    }
  }

  /** A subsequence of a duplicate-free sequence is duplicate-free. */
  lemma {:induction false} SubseqNoDuplicates<T>(a: seq<T>, b: seq<T>)
    requires IsSubseq(a, b) && NoDuplicates(b)
    ensures NoDuplicates(a)
    decreases |b|
  {
    if a != [] && b != [] {
      assert NoDuplicates(b[1..]) by {
        forall i, j | 0 <= i < j < |b| - 1 ensures b[1..][i] != b[1..][j] { assert b[1..][i] == b[i + 1] && b[1..][j] == b[j + 1]; }
      }
      if a[0] == b[0] && IsSubseq(a[1..], b[1..]) {
        SubseqNoDuplicates(a[1..], b[1..]);
        SubseqElements(a[1..], b[1..]);
        assert b[0] !in b[1..] by {
          forall i | 0 <= i < |b| - 1 ensures b[1..][i] != b[0] { assert b[1..][i] == b[i + 1]; }
        }
        forall i, j | 0 <= i < j < |a| ensures a[i] != a[j] {
          if i == 0 { assert a[j] == a[1..][j - 1]; } else { assert a[i] == a[1..][i - 1] && a[j] == a[1..][j - 1]; }
        }
      } else {
        SubseqNoDuplicates(a, b[1..]);
      }
    }
  }

  /** Filtering distributes over concatenation. */
  lemma {:induction false} FilterAppend<T(!new)>(s: seq<T>, t: seq<T>, f: T -> bool)
    ensures Filter(s + t, f) == Filter(s, f) + Filter(t, f)
  {
    if s == [] {
      assert s + t == t;
    } else {
      assert (s + t)[0] == s[0] && (s + t)[1..] == s[1..] + t;
      FilterAppend(s[1..], t, f);
    }
  }

  /** Tests that agree on every element filter alike. */
  lemma {:induction false} FilterCongruent<T(!new)>(s: seq<T>, f: T -> bool, g: T -> bool)
    requires forall i :: 0 <= i < |s| ==> f(s[i]) == g(s[i])
    ensures Filter(s, f) == Filter(s, g)
  {
    if s != [] {
      FilterCongruent(s[1..], f, g);
    }
  }

  /** Filtering a sequence cut in two filters each part. */
  lemma FilterSplit<T(!new)>(s: seq<T>, f: T -> bool, j: nat)
    requires j <= |s|
    ensures Filter(s, f) == Filter(s[..j], f) + Filter(s[j..], f)
  {
    assert s == s[..j] + s[j..];
    FilterAppend(s[..j], s[j..], f);
  }

  /** A test that fails on a whole stretch keeps nothing of it. */
  lemma FilterNoneBetween<T(!new)>(s: seq<T>, f: T -> bool, lo: nat, hi: nat)
    requires lo <= hi <= |s|
    requires forall k :: lo <= k < hi ==> !f(s[k])
    ensures Filter(s[lo..hi], f) == []
  {
    forall k | 0 <= k < hi - lo ensures !f(s[lo..hi][k]) { assert s[lo..hi][k] == s[lo + k]; }
    FilterNone(s[lo..hi], f);
  }

  /** A test that holds at exactly one position keeps exactly that element. */
  lemma FilterSingle<T(!new)>(s: seq<T>, f: T -> bool, i: nat)
    requires i < |s|
    requires forall k :: 0 <= k < |s| ==> (f(s[k]) <==> k == i)
    ensures Filter(s, f) == [s[i]]
  {
    FilterSplit(s, f, i);
    FilterSplit(s[i..], f, 1);
    assert s[i..][..1] == [s[i]] && s[i..][1..] == s[i + 1..|s|];
    FilterNoneBetween(s, f, 0, i);
    assert s[0..i] == s[..i];
    FilterNoneBetween(s, f, i + 1, |s|);
  }

  /** A test that holds at exactly two positions keeps exactly those elements, in order. */
  lemma FilterPair<T(!new)>(s: seq<T>, f: T -> bool, i: nat, j: nat)
    requires i < j < |s|
    requires forall k :: 0 <= k < |s| ==> (f(s[k]) <==> k == i || k == j)
    ensures Filter(s, f) == [s[i], s[j]]
  {
    FilterSplit(s, f, j);
    assert Filter(s[..j], f) == [s[i]] by {
      forall k | 0 <= k < j ensures f(s[..j][k]) <==> k == i { assert s[..j][k] == s[k]; }
      FilterSingle(s[..j], f, i);
    }
    assert Filter(s[j..], f) == [s[j]] by {
      forall k | 0 <= k < |s| - j ensures f(s[j..][k]) <==> k == 0 { assert s[j..][k] == s[j + k]; }
      FilterSingle(s[j..], f, 0);
    }
  }

  /** Subsequence is transitive. */
  lemma {:induction false} IsSubseqTrans<T>(a: seq<T>, b: seq<T>, c: seq<T>)
    requires IsSubseq(a, b) && IsSubseq(b, c)
    ensures IsSubseq(a, c)
    decreases |c|
  {
    if a != [] {
      if b[0] == c[0] && IsSubseq(b[1..], c[1..]) {
        if a[0] == b[0] && IsSubseq(a[1..], b[1..]) {
          IsSubseqTrans(a[1..], b[1..], c[1..]);
        } else {
          IsSubseqTrans(a, b[1..], c[1..]);
        }
      } else {
        IsSubseqTrans(a, b, c[1..]);
      }
    }
  }

  /** A prefix is a subsequence. */
  lemma {:induction false} PrefixSubseq<T>(s: seq<T>, n: nat)
    requires n <= |s|
    ensures IsSubseq(s[..n], s)
  {
    if n > 0 {
      PrefixSubseq(s[1..], n - 1);
      assert s[..n][0] == s[0] && s[..n][1..] == s[1..][..n - 1];
    }
  }

  /**
   * `s.filter(f).slice(0, n)`: at most `n` elements, each one from `s` that
   * passes `f`, in order; when fewer than `n` come back, none was cut off.
   */
  lemma TakeFilter<T(!new)>(s: seq<T>, f: T -> bool, n: nat)
    ensures |Take(Filter(s, f), n)| <= n
    ensures forall x :: x in Take(Filter(s, f), n) ==> x in s && f(x)
    ensures IsSubseq(Take(Filter(s, f), n), s)
    ensures |Take(Filter(s, f), n)| < n ==> forall x :: x in s && f(x) ==> x in Take(Filter(s, f), n)
  {
    var r := Filter(s, f);
    FilterSpec(s, f);
    PrefixSubseq(r, |Take(r, n)|);
    IsSubseqTrans(Take(r, n), r, s);
  }

  /** `s.find(f)`: the first element that passes `f`, if any. */
  function Find<T>(s: seq<T>, f: T -> bool): (r: Option<T>)
  {
    if s == [] then None
    else if f(s[0]) then Some(s[0])
    else Find(s[1..], f)
  }

  /** `x` passes `f` and sits at the first position of `s` whose element passes. */
  ghost predicate IsFirst<T>(s: seq<T>, f: T -> bool, x: T)
  {
    exists i :: 0 <= i < |s| && s[i] == x && f(x) && forall k :: 0 <= k < i ==> !f(s[k])
  }

  /** `find` gives nothing exactly when no element passes, and otherwise the first that does. */
  lemma {:induction false} FindSpec<T>(s: seq<T>, f: T -> bool)
    ensures Find(s, f) == None <==> forall i :: 0 <= i < |s| ==> !f(s[i])
    ensures Find(s, f).Some? ==> IsFirst(s, f, Find(s, f).value)
  {
    if s != [] {
      if f(s[0]) {
        assert IsFirst(s, f, s[0]) by { assert s[0] == s[0]; }
      } else {
        FindSpec(s[1..], f);
        assert forall i :: 1 <= i < |s| ==> s[i] == s[1..][i - 1];
        if Find(s[1..], f).Some? {
          var x := Find(s[1..], f).value;
          var i :| 0 <= i < |s[1..]| && s[1..][i] == x && f(x) && forall k :: 0 <= k < i ==> !f(s[1..][k]);
          assert forall k :: 0 <= k < i + 1 ==> !f(s[k]) by {
            forall k | 0 <= k < i + 1 ensures !f(s[k]) { if k > 0 { assert s[k] == s[1..][k - 1]; } }
          }
          assert s[i + 1] == x;
        }
      }
    }
  }
}
