/** In-place setters for the strictly lower and strictly upper triangles of
    a two-dimensional array. numpy's boolean-mask assignment visits the
    selected positions in row-major order and gives the k-th of them the
    k-th value; a single value is broadcast to every position, and any
    other count mismatch is a `ValueError` that leaves the array alone. */
module TriangularArrays {
  import opened Common

  // ---------------------------------------------------------------------
  // Counting and numbering the triangle positions of an m x n array.

  /** Positions `(i, j)` with `i > j` in row `i`: `min(i, n)`. */
  function LowerInRow(i: nat, n: nat): nat
  {
    if i < n then i else n
  }

  /** Positions `(i, j)` with `i < j` in row `i`. */
  function UpperInRow(i: nat, n: nat): nat
  {
    if i + 1 < n then n - 1 - i else 0
  }

  /** How many lower positions the rows before `i` hold. */
  function LowerBefore(i: nat, n: nat): nat
  {
    if i == 0 then 0 else LowerBefore(i - 1, n) + LowerInRow(i - 1, n)
  }

  /** How many upper positions the rows before `i` hold. */
  function UpperBefore(i: nat, n: nat): nat
  {
    if i == 0 then 0 else UpperBefore(i - 1, n) + UpperInRow(i - 1, n)
  }

  /** The rank of lower position `(i, j)` in row-major order. */
  function LowerIndex(i: nat, j: nat, n: nat): nat
  {
    LowerBefore(i, n) + j
  }

  /** The rank of upper position `(i, j)` in row-major order. */
  function UpperIndex(i: nat, j: nat, n: nat): nat
    requires i < j
  {
    UpperBefore(i, n) + (j - i - 1)
  }

  predicate IsLower(i: int, j: int, m: nat, n: nat)
  {
    0 <= j < i < m && j < n
  }

  predicate IsUpper(i: int, j: int, m: nat, n: nat)
  {
    0 <= i < j < n && i < m
  }

  /** The rank of a lower position of an m x n array, below the count. */
  function LowerRank(i: nat, j: nat, m: nat, n: nat): (k: nat)
    requires IsLower(i, j, m, n)
    ensures k == LowerIndex(i, j, n) < LowerBefore(m, n)
  {
    LowerIndexNumbers(i, j, i, j, m, n);
    LowerIndex(i, j, n)
  }

  /** The rank of an upper position of an m x n array, below the count. */
  function UpperRank(i: nat, j: nat, m: nat, n: nat): (k: nat)
    requires IsUpper(i, j, m, n)
    ensures k == UpperIndex(i, j, n) < UpperBefore(m, n)
  {
    UpperIndexNumbers(i, j, i, j, m, n);
    UpperIndex(i, j, n)
  }

  lemma {:induction false} BeforeMonotone(i: nat, i': nat, n: nat)
    requires i <= i'
    ensures LowerBefore(i, n) <= LowerBefore(i', n) && UpperBefore(i, n) <= UpperBefore(i', n)
    decreases i' - i
  {
    if i < i' {
      BeforeMonotone(i, i' - 1, n);
    }
  }

  /** Row-major rank is a numbering of the lower triangle: ranks lie below
      the number of lower positions, and a position earlier in row-major
      order has a smaller rank. */
  lemma {:induction false} LowerIndexNumbers(i: nat, j: nat, i': nat, j': nat, m: nat, n: nat)
    requires IsLower(i, j, m, n) && IsLower(i', j', m, n)
    ensures LowerIndex(i, j, n) < LowerBefore(m, n)
    ensures (i < i' || (i == i' && j < j')) ==> LowerIndex(i, j, n) < LowerIndex(i', j', n)
  {
    BeforeMonotone(i + 1, m, n);
    if i < i' {
      BeforeMonotone(i + 1, i', n);
    }
  }

  /** The same for the upper triangle. */
  lemma {:induction false} UpperIndexNumbers(i: nat, j: nat, i': nat, j': nat, m: nat, n: nat)
    requires IsUpper(i, j, m, n) && IsUpper(i', j', m, n)
    ensures UpperIndex(i, j, n) < UpperBefore(m, n)
    ensures (i < i' || (i == i' && j < j')) ==> UpperIndex(i, j, n) < UpperIndex(i', j', n)
  {
    BeforeMonotone(i + 1, m, n);
    if i < i' {
      BeforeMonotone(i + 1, i', n);
    }
  }

  /** In an n x n array both triangles hold n(n-1)/2 positions, the number
      `check_sizes` demands. */
  lemma TriangleCount(i: nat, n: nat)
    requires i <= n
    ensures 2 * LowerBefore(i, n) == i * (i - 1)
    ensures 2 * UpperBefore(i, n) == i * (2 * n - i - 1)
  {
    LowerCount(i, n);
    UpperCount(i, n);
  }

  lemma {:induction false} LowerCount(i: nat, n: nat)
    requires i <= n
    ensures 2 * LowerBefore(i, n) == i * (i - 1)
  {
    if i > 0 {
      LowerCount(i - 1, n);
      var p := i - 1;
      assert LowerInRow(p, n) == p;
      assert i * (i - 1) == p * (p - 1) + 2 * p by {
        assert i * (i - 1) == (p + 1) * p;
      }
    }
  }

  lemma {:induction false} UpperCount(i: nat, n: nat)
    requires i <= n
    ensures 2 * UpperBefore(i, n) == i * (2 * n - i - 1)
  {
    if i > 0 {
      UpperCount(i - 1, n);
      var p := i - 1;
      assert UpperInRow(p, n) == n - i;
      assert i * (2 * n - i - 1) == p * (2 * n - p - 1) + 2 * (n - i) by {
        assert i * (2 * n - i - 1) == (p + 1) * (2 * n - p - 2);
      }
    }
  }

  /** The upper position of row-major rank `k`, searched from row `r`. */
  function UpperAt(k: nat, m: nat, n: nat, r: nat): (p: (nat, nat))
    requires r < m && UpperBefore(r, n) <= k < UpperBefore(m, n)
    ensures r <= p.0 && IsUpper(p.0, p.1, m, n) && UpperIndex(p.0, p.1, n) == k
    decreases m - r
  {
    if k < UpperBefore(r, n) + UpperInRow(r, n) then
      BeforeMonotone(r + 1, m, n);
      (r, r + 1 + (k - UpperBefore(r, n)))
    else
      UpperAt(k, m, n, r + 1)
  }

  /** Which value a position of rank `k` receives when `count` values are
      assigned: its own, or the single broadcast one. */
  function Spread(k: nat, count: nat): nat
  {
    if count == 1 then 0 else k
  }

  // ---------------------------------------------------------------------
  // The setters.

  /** The masked assignment of `v` to the lower triangle: the rank-k lower
      position gets `v[k]` (or the one broadcast value); nothing else
      changes. */
  method AssignLower(a: array2<real>, v: seq<real>) returns (err: Option<string>)
    modifies a
    ensures var count := LowerBefore(a.Length0, a.Length1);
            err == if |v| == count || |v| == 1 then None else Some("ValueError")
    ensures err.Some? ==> forall i, j :: 0 <= i < a.Length0 && 0 <= j < a.Length1 ==> a[i, j] == old(a[i, j])
    ensures err.None? ==>
              forall i, j :: 0 <= i < a.Length0 && 0 <= j < a.Length1 ==>
                a[i, j] == if IsLower(i, j, a.Length0, a.Length1)
                           then v[Spread(LowerRank(i, j, a.Length0, a.Length1), |v|)]
                           else old(a[i, j])
  {
    var m, n := a.Length0, a.Length1;
    if |v| != LowerBefore(m, n) && |v| != 1 {
      return Some("ValueError");
    }
    err := None;
    var i := 0;
    while i < m
      invariant 0 <= i <= m
      invariant forall r, c :: 0 <= r < m && 0 <= c < n ==>
                  a[r, c] == if IsLower(r, c, m, n) && r < i then v[Spread(LowerRank(r, c, m, n), |v|)] else old(a[r, c])
    {
      var j := 0;
      var k := LowerBefore(i, n);
      BeforeMonotone(i + 1, m, n);
      while j < LowerInRow(i, n)
        invariant 0 <= j <= LowerInRow(i, n) && k == LowerIndex(i, j, n)
        invariant forall r, c :: 0 <= r < m && 0 <= c < n ==>
                    a[r, c] == if IsLower(r, c, m, n) && (r < i || (r == i && c < j))
                               then v[Spread(LowerRank(r, c, m, n), |v|)] else old(a[r, c])
      {
        a[i, j] := v[Spread(k, |v|)];
        j, k := j + 1, k + 1;
      }
      i := i + 1;
    }
  }

  /** The masked assignment of `v` to the upper triangle. */
  method AssignUpper(a: array2<real>, v: seq<real>) returns (err: Option<string>)
    modifies a
    ensures var count := UpperBefore(a.Length0, a.Length1);
            err == if |v| == count || |v| == 1 then None else Some("ValueError")
    ensures err.Some? ==> forall i, j :: 0 <= i < a.Length0 && 0 <= j < a.Length1 ==> a[i, j] == old(a[i, j])
    ensures err.None? ==>
              forall i, j :: 0 <= i < a.Length0 && 0 <= j < a.Length1 ==>
                a[i, j] == if IsUpper(i, j, a.Length0, a.Length1)
                           then v[Spread(UpperRank(i, j, a.Length0, a.Length1), |v|)]
                           else old(a[i, j])
  {
    var m, n := a.Length0, a.Length1;
    if |v| != UpperBefore(m, n) && |v| != 1 {
      return Some("ValueError");
    }
    err := None;
    var i := 0;
    while i < m
      invariant 0 <= i <= m
      invariant forall r, c :: 0 <= r < m && 0 <= c < n ==>
                  a[r, c] == if IsUpper(r, c, m, n) && r < i then v[Spread(UpperRank(r, c, m, n), |v|)] else old(a[r, c])
    {
      var j := i + 1;
      var k := UpperBefore(i, n);
      BeforeMonotone(i + 1, m, n);
      while j < n
        invariant i + 1 <= j && (if i + 1 < n then j <= n else j == i + 1) && k == UpperBefore(i, n) + (j - i - 1)
        invariant forall r, c :: 0 <= r < m && 0 <= c < n ==>
                    a[r, c] == if IsUpper(r, c, m, n) && (r < i || (r == i && c < j))
                               then v[Spread(UpperRank(r, c, m, n), |v|)] else old(a[r, c])
      {
        a[i, j] := v[Spread(k, |v|)];
        j, k := j + 1, k + 1;
      }
      i := i + 1;
    }
  }

  /** `tril_set`: with `check_sizes`, a vector whose length is not the
      number of lower positions fails the assertion before anything is
      written; otherwise the masked assignment. */
  method TrilSet(a: array2<real>, v: seq<real>, checkSizes: bool) returns (err: Option<string>)
    modifies a
    ensures checkSizes && |v| != LowerBefore(a.Length0, a.Length1) ==> err == Some("AssertionError")
    ensures !checkSizes || |v| == LowerBefore(a.Length0, a.Length1) ==>
              err == if |v| == LowerBefore(a.Length0, a.Length1) || |v| == 1 then None else Some("ValueError")
    ensures err.Some? ==> forall i, j :: 0 <= i < a.Length0 && 0 <= j < a.Length1 ==> a[i, j] == old(a[i, j])
    ensures err.None? ==>
              forall i, j :: 0 <= i < a.Length0 && 0 <= j < a.Length1 ==>
                a[i, j] == if IsLower(i, j, a.Length0, a.Length1)
                           then v[Spread(LowerRank(i, j, a.Length0, a.Length1), |v|)]
                           else old(a[i, j])
  {
    if checkSizes && |v| != LowerBefore(a.Length0, a.Length1) {
      return Some("AssertionError");
    }
    err := AssignLower(a, v);
  }

  /** `triu_set`: the same on the upper triangle. */
  method TriuSet(a: array2<real>, v: seq<real>, checkSizes: bool) returns (err: Option<string>)
    modifies a
    ensures checkSizes && |v| != UpperBefore(a.Length0, a.Length1) ==> err == Some("AssertionError")
    ensures !checkSizes || |v| == UpperBefore(a.Length0, a.Length1) ==>
              err == if |v| == UpperBefore(a.Length0, a.Length1) || |v| == 1 then None else Some("ValueError")
    ensures err.Some? ==> forall i, j :: 0 <= i < a.Length0 && 0 <= j < a.Length1 ==> a[i, j] == old(a[i, j])
    ensures err.None? ==>
              forall i, j :: 0 <= i < a.Length0 && 0 <= j < a.Length1 ==>
                a[i, j] == if IsUpper(i, j, a.Length0, a.Length1)
                           then v[Spread(UpperRank(i, j, a.Length0, a.Length1), |v|)]
                           else old(a[i, j])
  {
    if checkSizes && |v| != UpperBefore(a.Length0, a.Length1) {
      return Some("AssertionError");
    }
    err := AssignUpper(a, v);
  }

  /** `array[upper mask]`: the upper entries in row-major order, as a copy. */
  method UpperValues(a: array2<real>) returns (vals: seq<real>)
    ensures |vals| == UpperBefore(a.Length0, a.Length1)
    ensures forall i, j :: IsUpper(i, j, a.Length0, a.Length1) ==> vals[UpperRank(i, j, a.Length0, a.Length1)] == a[i, j]
  {
    var m, n := a.Length0, a.Length1;
    vals := [];
    var i := 0;
    while i < m
      invariant 0 <= i <= m && |vals| == UpperBefore(i, n)
      invariant forall r, c :: IsUpper(r, c, m, n) && r < i ==>
                  UpperIndex(r, c, n) < |vals| && vals[UpperIndex(r, c, n)] == a[r, c]
    {
      var j := i + 1;
      while j < n
        invariant i + 1 <= j && (if i + 1 < n then j <= n else j == i + 1) && |vals| == UpperBefore(i, n) + (j - i - 1)
        invariant forall r, c :: IsUpper(r, c, m, n) && (r < i || (r == i && c < j)) ==>
                    UpperIndex(r, c, n) < |vals| && vals[UpperIndex(r, c, n)] == a[r, c]
      {
        vals := vals + [a[i, j]];
        j := j + 1;
      }
      i := i + 1;
    }
  }

  /** Where `triu_2_tril` takes the value of lower position `(i, j)` from:
      the upper position of the same row-major rank (or the only upper
      position, broadcast). */
  function CopySource(i: nat, j: nat, m: nat, n: nat): (p: (nat, nat))
    requires IsLower(i, j, m, n)
    requires UpperBefore(m, n) == LowerBefore(m, n) || UpperBefore(m, n) == 1
    ensures IsUpper(p.0, p.1, m, n)
  {
    LowerIndexNumbers(i, j, i, j, m, n);
    UpperAt(Spread(LowerIndex(i, j, n), UpperBefore(m, n)), m, n, 0)
  }

  /** `triu_2_tril` as written: the upper entries, read in row-major
      order, are assigned to the lower positions in row-major order. When
      the counts differ (a non-square array) it fails as the assignment
      does; the diagonal and the upper triangle never change. */
  method TriuToTril(a: array2<real>) returns (err: Option<string>)
    modifies a
    ensures var m, n := a.Length0, a.Length1;
            err == if UpperBefore(m, n) == LowerBefore(m, n) || UpperBefore(m, n) == 1 then None
                   else Some("ValueError")
    ensures forall i, j :: 0 <= i < a.Length0 && 0 <= j < a.Length1 && !IsLower(i, j, a.Length0, a.Length1) ==>
              a[i, j] == old(a[i, j])
    ensures err.Some? ==> forall i, j :: 0 <= i < a.Length0 && 0 <= j < a.Length1 ==> a[i, j] == old(a[i, j])
    ensures err.None? ==>
              forall i, j :: IsLower(i, j, a.Length0, a.Length1) ==>
                var p := CopySource(i, j, a.Length0, a.Length1);
                a[i, j] == old(a[p.0, p.1])
  {
    var vals := UpperValues(a);
    err := AssignLower(a, vals);
    if err.None? {
      forall i, j | IsLower(i, j, a.Length0, a.Length1)
        ensures var p := CopySource(i, j, a.Length0, a.Length1);
                a[i, j] == old(a[p.0, p.1])
      {
        var p := CopySource(i, j, a.Length0, a.Length1);
        assert vals[UpperRank(p.0, p.1, a.Length0, a.Length1)] == old(a[p.0, p.1]);
      }
    }
  }

  /** Up to 3 x 3, the row-major pairing is the transpose: lower `(i, j)`
      receives upper `(j, i)`. */
  lemma TransposeUpToThree(i: nat, j: nat, n: nat)
    requires n <= 3 && IsLower(i, j, n, n)
    ensures UpperBefore(n, n) == LowerBefore(n, n)
    ensures CopySource(i, j, n, n) == (j, i)
  {
    TriangleCount(n, n);
    assert n == 2 || n == 3;
    if n == 2 {
      assert (i, j) == (1, 0);
    } else {
      assert UpperBefore(3, 3) == 3;
      assert UpperAt(0, 3, 3, 0) == (0, 1);
      assert UpperAt(1, 3, 3, 0) == (0, 2);
      assert UpperAt(2, 3, 3, 1) == (1, 2);
    }
  }

  /** From 4 x 4 on it is not: lower `(2, 1)` receives upper `(0, 3)`
      instead of `(1, 2)`. */
  lemma NotTransposeFromFour(n: nat)
    requires n >= 4
    ensures UpperBefore(n, n) == LowerBefore(n, n)
    ensures CopySource(2, 1, n, n) == (0, 3) != (1, 2)
  {
    TriangleCount(n, n);
    assert LowerBefore(1, n) == 0;
    assert LowerIndex(2, 1, n) == 2;
    assert UpperBefore(1, n) == n - 1;
  }

  /** The copy `triu_2_tril` evidently means: every lower entry becomes
      the mirror image of the upper one, `a[i, j] = a[j, i]`, so that the
      array ends up symmetric; nothing else changes. */
  method TriuToTrilTranspose(a: array2<real>)
    requires a.Length0 == a.Length1
    modifies a
    ensures forall i, j :: 0 <= i < a.Length0 && 0 <= j < a.Length1 ==>
              a[i, j] == if i > j then old(a[j, i]) else old(a[i, j])
    ensures forall i, j :: 0 <= i < a.Length0 && 0 <= j < a.Length1 ==> a[i, j] == a[j, i]
  {
    var n := a.Length0;
    var i := 0;
    while i < n
      invariant 0 <= i <= n
      invariant forall r, c :: 0 <= r < n && 0 <= c < n ==>
                  a[r, c] == if c < r < i then old(a[c, r]) else old(a[r, c])
    {
      var j := 0;
      while j < i
        invariant 0 <= j <= i
        invariant forall r, c :: 0 <= r < n && 0 <= c < n ==>
                    a[r, c] == if c < r && (r < i || (r == i && c < j)) then old(a[c, r]) else old(a[r, c])
      {
        a[i, j] := a[j, i];
        j := j + 1;
      }
      i := i + 1;
    }
  }
}
