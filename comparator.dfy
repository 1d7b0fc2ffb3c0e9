/**
 * `compareProducts`: the lower-cased ingredient lists of two products are
 * matched by substring containment in either direction, and the share of
 * common ingredients is rounded to a whole percentage.
 */
module Comparator {
  import opened Text
  import opened Collections

  /** The comparator's result, with the field names of the object the source returns. */
  datatype Comparison = Comparison(
    matchPercentage: int,
    common: seq<string>,
    onlyInOriginal: seq<string>,
    onlyInAlternative: seq<string>)

  /** `other.includes(t) || t.includes(other)`. */
  predicate Related(other: string, t: string)
  {
    Includes(other, t) || Includes(t, other)
  }

  /** `others.some(o => o.includes(t) || t.includes(o))`. */
  predicate HasCounterpart(others: seq<string>, t: string)
  {
    exists j :: 0 <= j < |others| && Related(others[j], t)
  }

  function CounterpartIn(others: seq<string>): string -> bool
  {
    (t: string) => HasCounterpart(others, t)
  }

  /**
   * The test the source applies to alternative tokens:
   * `originals.some(o => o.includes(t) || t.includes(t))`. Its second
   * disjunct compares the token with itself.
   */
  predicate SelfTestedCounterpart(originals: seq<string>, t: string)
  {
    exists j :: 0 <= j < |originals| && (Includes(originals[j], t) || Includes(t, t))
  }

  function SelfTestedIn(originals: seq<string>): string -> bool
  {
    (t: string) => SelfTestedCounterpart(originals, t)
  }

  /**
   * `Math.round(c / u * 100)` for `u > 0`, otherwise 0 (the source guards
   * the division): halves round up, so this is `(200 c + u) / (2 u)`.
   */
  function RoundedPercent(c: nat, u: nat): int
  {
    if u > 0 then (200 * c + u) / (2 * u) else 0
  }

  /** Multiplying by a non-negative factor keeps the order. */
  lemma MulMono(k: nat, a: int, b: int)
    requires a <= b
    ensures k * a <= k * b
  {
    assert k * b - k * a == k * (b - a);
  }

  /** The rounded percentage is the whole number nearest to `100 c / u`: `r - 1/2 <= 100 c / u < r + 1/2`. */
  lemma RoundedPercentSpec(c: nat, u: nat)
    requires u > 0
    ensures var r := RoundedPercent(c, u); 2 * u * r <= 200 * c + u < 2 * u * (r + 1)
  {
    var a, d := 200 * c + u, 2 * u;
    var r := a / d;
    assert a == d * r + a % d && 0 <= a % d < d;
    assert d * (r + 1) == d * r + d;
  }

  /** A share of at most the whole rounds to at most 100, and never below 0. */
  lemma RoundedPercentAtMost100(c: nat, u: nat)
    requires c <= u
    ensures 0 <= RoundedPercent(c, u) <= 100
  {
    if u > 0 {
      var r := RoundedPercent(c, u);
      RoundedPercentSpec(c, u);
      if r > 100 {
        MulMono(2 * u, 101, r);
        assert false;
      }
      if r < 0 {
        MulMono(2 * u, r + 1, 0);
        assert false;
      }
    }
  }

  /** The whole rounds to exactly 100. */
  lemma RoundedPercentOfWhole(u: nat)
    requires u > 0
    ensures RoundedPercent(u, u) == 100
  {
    var r := RoundedPercent(u, u);
    RoundedPercentSpec(u, u);
    RoundedPercentAtMost100(u, u);
    if r < 100 {
      MulMono(2 * u, r + 1, 100);
      assert false;
    }
  }

  /** `new Set([...no, ...na]).size`. */
  function DistinctCount(no: seq<string>, na: seq<string>): nat
  {
    |Elements(no + na)|
  }

  /** `compareProducts(original, alternative)`. */
  function Compare(original: seq<string>, alternative: seq<string>): Comparison
  {
    var no := LowerAll(original);
    var na := LowerAll(alternative);
    var common := Filter(no, CounterpartIn(na));
    Comparison(
      RoundedPercent(|common|, DistinctCount(no, na)),
      common,
      Reject(no, CounterpartIn(na)),
      Reject(na, SelfTestedIn(no)))
  }

  /**
   * `common` and `onlyInOriginal` share out the lower-cased original list:
   * each keeps the original order, together they hold every token exactly
   * as often as the original does, and a token goes to `common` exactly
   * when it and some alternative token contain one another.
   */
  lemma ComparePartition(original: seq<string>, alternative: seq<string>)
    ensures var r := Compare(original, alternative);
      var no, na := LowerAll(original), LowerAll(alternative);
      && IsSubseq(r.common, no) && IsSubseq(r.onlyInOriginal, no)
      && multiset(r.common) + multiset(r.onlyInOriginal) == multiset(no)
      && |r.common| + |r.onlyInOriginal| == |original|
      && (forall t :: t in r.common <==> t in no && HasCounterpart(na, t))
      && (forall t :: t in r.onlyInOriginal <==> t in no && !HasCounterpart(na, t))
  {
    var no, na := LowerAll(original), LowerAll(alternative);
    var f := CounterpartIn(na);
    FilterSpec(no, f);
    FilterSpec(no, Not(f));
    FilterRejectMultiset(no, f);
    FilterRejectSplit(no, f);
  }

  /**
   * Because the second disjunct of the alternative test compares a token
   * with itself, `onlyInAlternative` is empty whenever the original list is
   * not, and is the whole lower-cased alternative list when it is.
   */
  lemma OnlyInAlternativeSelfComparison(original: seq<string>, alternative: seq<string>)
    ensures original != [] ==> Compare(original, alternative).onlyInAlternative == []
    ensures original == [] ==> Compare(original, alternative).onlyInAlternative == LowerAll(alternative)
  {
    var no, na := LowerAll(original), LowerAll(alternative);
    var keep := Not(SelfTestedIn(no));
    if original != [] {
      forall i | 0 <= i < |na| ensures !keep(na[i]) {
        IncludesSelf(na[i]);
        assert Includes(no[0], na[i]) || Includes(na[i], na[i]);
      }
      FilterNone(na, keep);
    } else {
      FilterAll(na, keep);
    }
  }

  /** The percentage is 0 when there is nothing to compare, and otherwise the rounded share of common tokens. */
  lemma MatchPercentageCases(original: seq<string>, alternative: seq<string>)
    ensures var r := Compare(original, alternative);
      var u := DistinctCount(LowerAll(original), LowerAll(alternative));
      && (original == [] && alternative == [] ==> r.matchPercentage == 0)
      && (original != [] || alternative != [] ==>
            u > 0 && 2 * u * r.matchPercentage <= 200 * |r.common| + u < 2 * u * (r.matchPercentage + 1))
  {
    var no, na := LowerAll(original), LowerAll(alternative);
    if original != [] || alternative != [] {
      assert (no + na)[0] in Elements(no + na);
      RoundedPercentSpec(|Filter(no, CounterpartIn(na))|, DistinctCount(no, na));
    }
  }

  /** Without case-insensitive repeats in the original list, the percentage is at most 100. */
  lemma MatchPercentageAtMost100(original: seq<string>, alternative: seq<string>)
    requires NoDuplicates(LowerAll(original))
    ensures 0 <= Compare(original, alternative).matchPercentage <= 100
  {
    var no, na := LowerAll(original), LowerAll(alternative);
    var common := Filter(no, CounterpartIn(na));
    var u := DistinctCount(no, na);
    assert |common| <= u by {
      ElementsBound(no);
      assert Elements(no) <= Elements(no + na);
      SubsetCard(Elements(no), Elements(no + na));
    }
    RoundedPercentAtMost100(|common|, u);
  }

  /** A repeated original token is counted twice but the set counts it once: `["a", "a"]` against `["a"]` gives 200. */
  lemma MatchPercentageCanExceed100()
    ensures Compare(["a", "a"], ["a"]).matchPercentage == 200
  {
    assert Lower("a") == "a";
    assert LowerAll(["a", "a"]) == ["a", "a"] && LowerAll(["a"]) == ["a"];
    assert Filter(["a", "a"], CounterpartIn(["a"])) == ["a", "a"] by {
      IncludesSelf("a");
      assert HasCounterpart(["a"], "a") by { assert Related(["a"][0], "a"); }
      FilterAll(["a", "a"], CounterpartIn(["a"]));
    }
    assert DistinctCount(["a", "a"], ["a"]) == 1 by {
      assert Elements(["a", "a"] + ["a"]) == {"a"};
    }
    assert RoundedPercent(2, 1) == 200;
  }

  /** Comparing a duplicate-free non-empty list with itself gives 100 and no unmatched tokens. */
  lemma CompareWithItself(ingredients: seq<string>)
    requires ingredients != [] && NoDuplicates(LowerAll(ingredients))
    ensures Compare(ingredients, ingredients) == Comparison(100, LowerAll(ingredients), [], [])
  {
    var n := LowerAll(ingredients);
    var f := CounterpartIn(n);
    assert forall i :: 0 <= i < |n| ==> f(n[i]) by {
      forall i | 0 <= i < |n| ensures f(n[i]) {
        IncludesSelf(n[i]);
        assert Related(n[i], n[i]);
      }
    }
    assert Filter(n, f) == n by { FilterAll(n, f); }
    assert Reject(n, f) == [] by { FilterNone(n, Not(f)); }
    assert Reject(n, SelfTestedIn(n)) == [] by { OnlyInAlternativeSelfComparison(ingredients, ingredients); }
    assert DistinctCount(n, n) == |n| by {
      ElementsTwice(n);
      ElementsBound(n);
    }
    RoundedPercentOfWhole(|n|);
    assert Compare(ingredients, ingredients) == Comparison(
      RoundedPercent(|Filter(n, f)|, DistinctCount(n, n)), Filter(n, f), Reject(n, f), Reject(n, SelfTestedIn(n)));
  }
}
