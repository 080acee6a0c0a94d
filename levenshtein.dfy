/** `levenshteinDistance`, the typo detector of the query expansion: a full
    dynamic-programming matrix whose row i stands for the first i characters
    of `b` and whose column j for the first j characters of `a`. */
module Levenshtein {

  function Min3(x: nat, y: nat, z: nat): nat {
    if x <= y && x <= z then x else if y <= z then y else z
  }

  /** The insert/delete/substitute edit distance, by the recurrence the
      matrix fills in: equal last characters cost nothing; otherwise one
      edit plus the cheapest of substituting, deleting from `a` or deleting
      from `b`. */
  function Distance(a: string, b: string): nat
    decreases |a| + |b|
  {
    if |a| == 0 then |b|
    else if |b| == 0 then |a|
    else
      var a', b' := a[..|a| - 1], b[..|b| - 1];
      if a[|a| - 1] == b[|b| - 1] then Distance(a', b')
      else 1 + Min3(Distance(a', b'), Distance(a', b), Distance(a, b'))
  }

  /** The distance between the first c characters of `a` and the first r
      characters of `b`: what the matrix holds in row r, column c. */
  ghost function Cell(a: string, b: string, r: nat, c: nat): nat
    requires r <= |b| && c <= |a|
  {
    Distance(a[..c], b[..r])
  }

  lemma CellEdges(a: string, b: string, r: nat, c: nat)
    requires r <= |b| && c <= |a|
    ensures Cell(a, b, 0, c) == c && Cell(a, b, r, 0) == r
  {
  }

  lemma CellStep(a: string, b: string, r: nat, c: nat)
    requires 1 <= r <= |b| && 1 <= c <= |a|
    ensures Cell(a, b, r, c) ==
      if b[r - 1] == a[c - 1] then Cell(a, b, r - 1, c - 1)
      else 1 + Min3(Cell(a, b, r - 1, c - 1), Cell(a, b, r, c - 1), Cell(a, b, r - 1, c))
  {
    assert a[..c][..c - 1] == a[..c - 1] && b[..r][..r - 1] == b[..r - 1];
    assert a[..c][c - 1] == a[c - 1] && b[..r][r - 1] == b[r - 1];
  }

  /** Fills the matrix row by row as the source's nested `for` loops do and
      returns its bottom-right cell. */
  method LevenshteinDistance(a: string, b: string) returns (d: nat)
    ensures d == Distance(a, b)
  {
    var matrix := new nat[|b| + 1, |a| + 1];
    for i := 0 to |b| + 1
      invariant forall r :: 0 <= r < i ==> matrix[r, 0] == r
    {
      matrix[i, 0] := i;
    }
    for j := 0 to |a| + 1
      invariant forall r :: 0 <= r <= |b| ==> matrix[r, 0] == r
      invariant forall c :: 0 <= c < j ==> matrix[0, c] == c
    {
      matrix[0, j] := j;
    }
    forall c | 0 <= c <= |a|
      ensures matrix[0, c] == Cell(a, b, 0, c)
    {
      CellEdges(a, b, 0, c);
    }
    for i := 1 to |b| + 1
      invariant forall r, c :: 0 <= r < i && 0 <= c <= |a| ==> matrix[r, c] == Cell(a, b, r, c)
      invariant forall r :: i <= r <= |b| ==> matrix[r, 0] == r
    {
      CellEdges(a, b, i, 0);
      for j := 1 to |a| + 1
        invariant forall r, c :: 0 <= r < i && 0 <= c <= |a| ==> matrix[r, c] == Cell(a, b, r, c)
        invariant forall r :: i <= r <= |b| ==> matrix[r, 0] == r
        invariant forall c :: 0 <= c < j ==> matrix[i, c] == Cell(a, b, i, c)
      {
        CellStep(a, b, i, j);
        if b[i - 1] == a[j - 1] {
          matrix[i, j] := matrix[i - 1, j - 1];
        } else {
          matrix[i, j] := Min3(matrix[i - 1, j - 1] + 1, matrix[i, j - 1] + 1, matrix[i - 1, j] + 1);
        }
      }
    }
    assert a[..|a|] == a && b[..|b|] == b;
    d := matrix[|b|, |a|];
  }

  /** A string is at distance 0 from itself. */
  lemma {:induction false} DistanceToSelf(a: string)
    ensures Distance(a, a) == 0
  {
    if |a| > 0 {
      DistanceToSelf(a[..|a| - 1]);
    }
  }

  /** Against the empty string the distance is the other length; in general
      it lies between the difference of the lengths and the larger length. */
  lemma {:induction false} DistanceBounds(a: string, b: string)
    decreases |a| + |b|
    ensures b == [] ==> Distance(a, b) == |a|
    ensures a == [] ==> Distance(a, b) == |b|
    ensures Distance(a, b) <= if |a| >= |b| then |a| else |b|
    ensures Distance(a, b) >= |a| - |b| && Distance(a, b) >= |b| - |a|
  {
    if |a| > 0 && |b| > 0 {
      var a', b' := a[..|a| - 1], b[..|b| - 1];
      DistanceBounds(a', b');
      DistanceBounds(a', b);
      DistanceBounds(a, b');
    }
  }

  /** The distance does not depend on the order of its arguments. */
  lemma {:induction false} DistanceSymmetric(a: string, b: string)
    decreases |a| + |b|
    ensures Distance(a, b) == Distance(b, a)
  {
    if |a| > 0 && |b| > 0 {
      var a', b' := a[..|a| - 1], b[..|b| - 1];
      DistanceSymmetric(a', b');
      DistanceSymmetric(a', b);
      DistanceSymmetric(a, b');
    }
  }

  /** A four-letter word two edits away from the two-letter form "ar"
      ("arrière"), which is enough for the fuzzy recovery of the query
      expansion to fire. */
  lemma TardIsNearAr()
    ensures Distance("tard", "ar") == 2
  {
    assert Distance("t", "") == 1;
    assert Distance("ta", "a") == 1 by { assert "ta"[..1] == "t" && "a"[..0] == ""; }
    assert Distance("tar", "ar") == 1 by { assert "tar"[..2] == "ta" && "ar"[..1] == "a"; }
    DistanceBounds("tard", "ar");
    assert "tard"[..3] == "tar";
  }
}
