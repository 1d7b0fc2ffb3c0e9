/**
 * `parseIngredients`: a free-text ingredient list becomes the sequence of
 * its trimmed, non-empty pieces between the separators `,`, `;` and `|`.
 */
module IngredientParser {
  import opened Text

  predicate IsSeparator(c: char)
  {
    c == ',' || c == ';' || c == '|'
  }

  predicate NoSeparator(s: string)
  {
    forall i :: 0 <= i < |s| ==> !IsSeparator(s[i])
  }

  /** What the parser promises of each token it returns. */
  predicate IsToken(t: string)
  {
    t != [] && IsTrimmed(t) && NoSeparator(t)
  }

  /** `s.split(/,|;|\|/)`: the pieces between separators; there is always one more piece than separators. */
  function Split(s: string): (r: seq<string>)
    ensures |r| >= 1
    ensures forall i :: 0 <= i < |r| ==> NoSeparator(r[i])
  {
    if s == [] then [[]]
    else
      var rest := Split(s[1..]);
      if IsSeparator(s[0]) then [[]] + rest
      else
        assert forall i :: 1 <= i < |rest| ==> ([[s[0]] + rest[0]] + rest[1..])[i] == rest[i];
        [[s[0]] + rest[0]] + rest[1..]
  }

  /** The separator characters of `s`, in order. */
  function Separators(s: string): seq<char>
  {
    if s == [] then []
    else if IsSeparator(s[0]) then [s[0]] + Separators(s[1..])
    else Separators(s[1..])
  }

  /** Glues pieces back together with the given separators between them. */
  function Interleave(pieces: seq<string>, seps: seq<char>): string
    requires |pieces| == |seps| + 1
  {
    if seps == [] then pieces[0]
    else pieces[0] + [seps[0]] + Interleave(pieces[1..], seps[1..])
  }

  lemma {:induction false} InterleaveCons(c: char, pieces: seq<string>, seps: seq<char>)
    requires |pieces| == |seps| + 1
    ensures Interleave([[c] + pieces[0]] + pieces[1..], seps) == [c] + Interleave(pieces, seps)
  {
    var ps := [[c] + pieces[0]] + pieces[1..];
    assert ps[1..] == pieces[1..];
  }

  /** Splitting loses nothing: the pieces and the separators rebuild the input. */
  lemma {:induction false} SplitRoundTrip(s: string)
    ensures |Split(s)| == |Separators(s)| + 1
    ensures Interleave(Split(s), Separators(s)) == s
  {
    if s != [] {
      SplitRoundTrip(s[1..]);
      var rest := Split(s[1..]);
      if IsSeparator(s[0]) {
        assert ([[]] + rest)[1..] == rest;
      } else {
        InterleaveCons(s[0], rest, Separators(s[1..]));
      }
    }
  }

  /** A piece between two separators splits off exactly. */
  lemma {:induction false} SplitConcat(a: string, c: char, b: string)
    requires IsSeparator(c)
    ensures Split(a + [c] + b) == Split(a) + Split(b)
  {
    if a == [] {
      assert a + [c] + b == [c] + b;
      assert ([c] + b)[1..] == b;
    } else {
      assert (a + [c] + b)[1..] == a[1..] + [c] + b;
      SplitConcat(a[1..], c, b);
    }
  }

  /** Text without a separator is one piece. */
  lemma {:induction false} SplitSegment(a: string)
    requires NoSeparator(a)
    ensures Split(a) == [a]
  {
    if a != [] {
      SplitSegment(a[1..]);
      assert [a[0]] + a[1..] == a;
    }
  }

  /** `.map(trim).filter(length > 0)` over the pieces. */
  function CleanPieces(pieces: seq<string>): (r: seq<string>)
    ensures |r| <= |pieces|
  {
    if pieces == [] then []
    else
      var t := Trim(pieces[0]);
      (if t == [] then [] else [t]) + CleanPieces(pieces[1..])
  }

  lemma {:induction false} CleanPiecesConcat(p: seq<string>, q: seq<string>)
    ensures CleanPieces(p + q) == CleanPieces(p) + CleanPieces(q)
  {
    if p == [] {
      assert p + q == q;
    } else {
      var head := if Trim(p[0]) == [] then [] else [Trim(p[0])];
      assert (p + q)[0] == p[0] && (p + q)[1..] == p[1..] + q;
      assert CleanPieces(p + q) == head + CleanPieces(p[1..] + q);
      CleanPiecesConcat(p[1..], q);
      assert CleanPieces(p) == head + CleanPieces(p[1..]);
    }
  }

  lemma {:induction false} CleanPiecesTokens(pieces: seq<string>)
    requires forall i :: 0 <= i < |pieces| ==> NoSeparator(pieces[i])
    ensures forall i :: 0 <= i < |CleanPieces(pieces)| ==> IsToken(CleanPieces(pieces)[i])
  {
    if pieces != [] {
      CleanPiecesTokens(pieces[1..]);
      var t := Trim(pieces[0]);
      TrimSlice(pieces[0]);
      var a, b :| 0 <= a <= b <= |pieces[0]| && t == pieces[0][a..b];
      assert forall k :: 0 <= k < |t| ==> t[k] == pieces[0][a + k];
    }
  }

  /**
   * `parseIngredients(s)`: empty input gives no tokens, and every token is
   * non-empty, trimmed and free of separators.
   */
  function ParseIngredients(s: string): (r: seq<string>)
    ensures s == [] ==> r == []
    ensures forall i :: 0 <= i < |r| ==> IsToken(r[i])
  {
    if s == [] then []
    else
      CleanPiecesTokens(Split(s));
      CleanPieces(Split(s))
  }

  lemma ParseIsCleanSplit(s: string)
    ensures ParseIngredients(s) == CleanPieces(Split(s))
  {
    if s == [] {
      assert Split(s) == [[]];
      assert Trim([]) == [];
    }
  }

  /**
   * Tokens keep the order of the text and duplicates survive: the tokens of
   * two stretches joined by a separator are the tokens of each, concatenated.
   */
  lemma ParseConcat(a: string, c: char, b: string)
    requires IsSeparator(c)
    ensures ParseIngredients(a + [c] + b) == ParseIngredients(a) + ParseIngredients(b)
  {
    ParseIsCleanSplit(a + [c] + b);
    ParseIsCleanSplit(a);
    ParseIsCleanSplit(b);
    SplitConcat(a, c, b);
    CleanPiecesConcat(Split(a), Split(b));
  }

  /**
   * A stretch without separators gives at most one token: the stretch with
   * its surrounding white space removed, letters in their original case.
   */
  lemma ParseSegment(a: string)
    requires NoSeparator(a)
    ensures ParseIngredients(a) == if AllSpace(a) then [] else [Trim(a)]
  {
    ParseIsCleanSplit(a);
    SplitSegment(a);
    TrimSlice(a);
    assert CleanPieces([a]) == (if Trim(a) == [] then [] else [Trim(a)]) + CleanPieces([]);
  }
}
