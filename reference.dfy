/**
 * The test-only `reference_implementation` (the same function appears in
 * `clblast/src/lib.rs` and `clblast/src/gemm.rs`) and its worked fixture.
 * With `ns` samples and `nst` streams it fills an `ns * nst` vector with
 * `out[x + y * ns] = Σ_{k < nst} samples[x + ns * k] * matrix[y * nst + k]`,
 * which is the row-major product of the `nst`-by-`nst` stream matrix with
 * the `nst`-by-`ns` sample matrix. Values are modelled as integers.
 */
module Reference {

  // ---------------------------------------------------------------------
  // Index arithmetic.
  // ---------------------------------------------------------------------

  /** Row `r`, column `c` of a row-major `rows`-by-`cols` matrix lies inside it. */
  lemma InBounds(rows: nat, cols: nat, r: nat, c: nat)
    requires r < rows && c < cols
    ensures r * cols + c < rows * cols
  {
    assert r * cols + cols == (r + 1) * cols;
    assert (r + 1) * cols <= rows * cols;
  }

  /** A later row starts at least one full row further on. */
  lemma RowsApart(ns: nat, y: nat, y': nat)
    requires y < y'
    ensures y * ns + ns <= y' * ns
  {
    var d := y' - y - 1;
    assert y' == y + 1 + d;
    assert y' * ns == y * ns + ns + d * ns;
  }

  /** Distinct (column, row) pairs address distinct positions. */
  lemma IndexInjective(ns: nat, x: nat, y: nat, x': nat, y': nat)
    requires x < ns && x' < ns && x + y * ns == x' + y' * ns
    ensures x == x' && y == y'
  {
    if y < y' {
      RowsApart(ns, y, y');
    } else if y' < y {
      RowsApart(ns, y', y);
    }
  }

  /** Every position below `ns * nst` is column `i % ns` of row `i / ns`. */
  lemma SplitIndex(ns: nat, nst: nat, i: nat)
    requires i < ns * nst
    ensures ns > 0 && i % ns < ns && i / ns < nst && i == i % ns + (i / ns) * ns
  {
  }

  /** Column `x` of row `y` is the position `x + y * ns`, and no other. */
  lemma Cell(ns: nat, nst: nat, x: nat, y: nat)
    requires x < ns && y < nst
    ensures x + y * ns < ns * nst
    ensures (x + y * ns) % ns == x && (x + y * ns) / ns == y
  {
    assert x + y * ns < ns + y * ns == (y + 1) * ns <= nst * ns;
    var i := x + y * ns;
    SplitIndex(ns, nst, i);
    IndexInjective(ns, i % ns, i / ns, x, y);
  }

  // ---------------------------------------------------------------------
  // The specification.
  // ---------------------------------------------------------------------

  /** The partial accumulation `Σ_{k < count} samples[x + ns * k] * matrix[y * nst + k]`. */
  function RowSum(ns: nat, nst: nat, samples: seq<int>, matrix: seq<int>, x: nat, y: nat, count: nat): int
    requires |samples| >= ns * nst && |matrix| >= nst * nst
    requires x < ns && y < nst && count <= nst
    decreases count
  {
    if count == 0 then 0
    else
      InBounds(nst, ns, count - 1, x);
      InBounds(nst, nst, y, count - 1);
      RowSum(ns, nst, samples, matrix, x, y, count - 1)
        + samples[x + ns * (count - 1)] * matrix[y * nst + (count - 1)]
  }

  /** The value the reference implementation stores at position `i`. */
  function At(ns: nat, nst: nat, samples: seq<int>, matrix: seq<int>, i: nat): int
    requires |samples| >= ns * nst && |matrix| >= nst * nst && i < ns * nst
  {
    SplitIndex(ns, nst, i);
    RowSum(ns, nst, samples, matrix, i % ns, i / ns, nst)
  }

  /** The vector the reference implementation returns. */
  function Reference(ns: nat, nst: nat, samples: seq<int>, matrix: seq<int>): (out: seq<int>)
    requires |samples| >= ns * nst && |matrix| >= nst * nst
    ensures |out| == ns * nst
  {
    seq(ns * nst, i requires 0 <= i < ns * nst => At(ns, nst, samples, matrix, i))
  }

  /** Column `x` of row `y` of the result holds the full sum over the `nst` streams. */
  lemma ReferenceAt(ns: nat, nst: nat, samples: seq<int>, matrix: seq<int>, x: nat, y: nat)
    requires |samples| >= ns * nst && |matrix| >= nst * nst
    requires x < ns && y < nst
    ensures x + y * ns < |Reference(ns, nst, samples, matrix)|
    ensures Reference(ns, nst, samples, matrix)[x + y * ns] == RowSum(ns, nst, samples, matrix, x, y, nst)
  {
    Cell(ns, nst, x, y);
  }

  /**
   * Entry (i, j) of the row-major product of the `m`-by-`k` matrix `a` and
   * the `k`-by-`n` matrix `b`, summed over the first `count` terms.
   */
  function ProductSum(a: seq<int>, b: seq<int>, m: nat, n: nat, k: nat, i: nat, j: nat, count: nat): int
    requires |a| >= m * k && |b| >= k * n
    requires i < m && j < n && count <= k
    decreases count
  {
    if count == 0 then 0
    else
      InBounds(m, k, i, count - 1);
      InBounds(k, n, count - 1, j);
      ProductSum(a, b, m, n, k, i, j, count - 1) + a[i * k + (count - 1)] * b[(count - 1) * n + j]
  }

  /** The row-major product `a * b`, an `m`-by-`n` matrix. */
  function MatMul(a: seq<int>, b: seq<int>, m: nat, n: nat, k: nat): (c: seq<int>)
    requires |a| >= m * k && |b| >= k * n
    ensures |c| == m * n
  {
    seq(m * n, idx requires 0 <= idx < m * n =>
      SplitIndex(n, m, idx);
      ProductSum(a, b, m, n, k, idx / n, idx % n, k))
  }

  /** The reference sum for column `x`, row `y` is entry (y, x) of the product. */
  lemma {:induction false} RowSumIsProductSum(ns: nat, nst: nat, samples: seq<int>, matrix: seq<int>,
                                              x: nat, y: nat, count: nat)
    requires |samples| >= ns * nst && |matrix| >= nst * nst
    requires x < ns && y < nst && count <= nst
    ensures RowSum(ns, nst, samples, matrix, x, y, count) == ProductSum(matrix, samples, nst, ns, nst, y, x, count)
  {
    if count > 0 {
      RowSumIsProductSum(ns, nst, samples, matrix, x, y, count - 1);
    }
  }

  /**
   * The reference implementation computes the row-major product of the
   * `nst`-by-`nst` stream matrix with the `nst`-by-`ns` sample matrix.
   */
  lemma ReferenceIsProduct(ns: nat, nst: nat, samples: seq<int>, matrix: seq<int>)
    requires |samples| >= ns * nst && |matrix| >= nst * nst
    ensures Reference(ns, nst, samples, matrix) == MatMul(matrix, samples, nst, ns, nst)
  {
    var r, p := Reference(ns, nst, samples, matrix), MatMul(matrix, samples, nst, ns, nst);
    forall i | 0 <= i < ns * nst
      ensures r[i] == p[i]
    {
      SplitIndex(ns, nst, i);
      var x, y := i % ns, i / ns;
      assert r[i] == RowSum(ns, nst, samples, matrix, x, y, nst);
      assert p[i] == ProductSum(matrix, samples, nst, ns, nst, y, x, nst);
      RowSumIsProductSum(ns, nst, samples, matrix, x, y, nst);
    }
  }

  /** The sample matrix of `test_reference`: three samples in each of five streams. */
  const FixtureSamples: seq<int> := [1, 2, 3, 4, 5, 6, 7, 8, 9, 7, 8, 9, 7, 8, 9]

  /** The stream matrix of `test_reference`. */
  const FixtureMatrix: seq<int> := [0, 2, 1, 0, 2, 0, 1, 1, 2, 3, 1, 2, 3, 4, 5, 0, 0, 0, 0, 0, 0, 1, 3, 9, 2]

  /** The three sums of stream 0 in the fixture. */
  lemma FixtureSums0()
    ensures RowSum(3, 5, FixtureSamples, FixtureMatrix, 0, 0, 5) == 29
    ensures RowSum(3, 5, FixtureSamples, FixtureMatrix, 1, 0, 5) == 34
    ensures RowSum(3, 5, FixtureSamples, FixtureMatrix, 2, 0, 5) == 39
  {
  }

  /** Positions 0..2 of the vector `test_reference` expects. */
  lemma FixtureRow0()
    ensures |Reference(3, 5, FixtureSamples, FixtureMatrix)| == 15
    ensures Reference(3, 5, FixtureSamples, FixtureMatrix)[0] == 29
    ensures Reference(3, 5, FixtureSamples, FixtureMatrix)[1] == 34
    ensures Reference(3, 5, FixtureSamples, FixtureMatrix)[2] == 39
  {
    FixtureSums0();
  }

  /** The three sums of stream 1 in the fixture. */
  lemma FixtureSums1()
    ensures RowSum(3, 5, FixtureSamples, FixtureMatrix, 0, 1, 5) == 46
    ensures RowSum(3, 5, FixtureSamples, FixtureMatrix, 1, 1, 5) == 53
    ensures RowSum(3, 5, FixtureSamples, FixtureMatrix, 2, 1, 5) == 60
  {
  }

  /** Positions 3..5 of the vector `test_reference` expects. */
  lemma FixtureRow1()
    ensures |Reference(3, 5, FixtureSamples, FixtureMatrix)| == 15
    ensures Reference(3, 5, FixtureSamples, FixtureMatrix)[3] == 46
    ensures Reference(3, 5, FixtureSamples, FixtureMatrix)[4] == 53
    ensures Reference(3, 5, FixtureSamples, FixtureMatrix)[5] == 60
  {
    FixtureSums1();
  }

  /** The three sums of stream 2 in the fixture. */
  lemma FixtureSums2()
    ensures RowSum(3, 5, FixtureSamples, FixtureMatrix, 0, 2, 5) == 93
    ensures RowSum(3, 5, FixtureSamples, FixtureMatrix, 1, 2, 5) == 108
    ensures RowSum(3, 5, FixtureSamples, FixtureMatrix, 2, 2, 5) == 123
  {
  }

  /** Positions 6..8 of the vector `test_reference` expects. */
  lemma FixtureRow2()
    ensures |Reference(3, 5, FixtureSamples, FixtureMatrix)| == 15
    ensures Reference(3, 5, FixtureSamples, FixtureMatrix)[6] == 93
    ensures Reference(3, 5, FixtureSamples, FixtureMatrix)[7] == 108
    ensures Reference(3, 5, FixtureSamples, FixtureMatrix)[8] == 123
  {
    FixtureSums2();
  }

  /** The three sums of stream 3 in the fixture. */
  lemma FixtureSums3()
    ensures RowSum(3, 5, FixtureSamples, FixtureMatrix, 0, 3, 5) == 0
    ensures RowSum(3, 5, FixtureSamples, FixtureMatrix, 1, 3, 5) == 0
    ensures RowSum(3, 5, FixtureSamples, FixtureMatrix, 2, 3, 5) == 0
  {
  }

  /** Positions 9..11 of the vector `test_reference` expects. */
  lemma FixtureRow3()
    ensures |Reference(3, 5, FixtureSamples, FixtureMatrix)| == 15
    ensures Reference(3, 5, FixtureSamples, FixtureMatrix)[9] == 0
    ensures Reference(3, 5, FixtureSamples, FixtureMatrix)[10] == 0
    ensures Reference(3, 5, FixtureSamples, FixtureMatrix)[11] == 0
  {
    FixtureSums3();
  }

  /** The three sums of stream 4 in the fixture. */
  lemma FixtureSums4()
    ensures RowSum(3, 5, FixtureSamples, FixtureMatrix, 0, 4, 5) == 102
    ensures RowSum(3, 5, FixtureSamples, FixtureMatrix, 1, 4, 5) == 117
    ensures RowSum(3, 5, FixtureSamples, FixtureMatrix, 2, 4, 5) == 132
  {
  }

  /** Positions 12..14 of the vector `test_reference` expects. */
  lemma FixtureRow4()
    ensures |Reference(3, 5, FixtureSamples, FixtureMatrix)| == 15
    ensures Reference(3, 5, FixtureSamples, FixtureMatrix)[12] == 102
    ensures Reference(3, 5, FixtureSamples, FixtureMatrix)[13] == 117
    ensures Reference(3, 5, FixtureSamples, FixtureMatrix)[14] == 132
  {
    FixtureSums4();
  }

  // ---------------------------------------------------------------------
  // The implementation: three nested loops writing into a zeroed vector.
  // ---------------------------------------------------------------------

  /**
   * The positions the loops have written so far, every column before `x`
   * and the first `y` rows of column `x`, hold their final values.
   */
  predicate Filled(ns: nat, nst: nat, samples: seq<int>, matrix: seq<int>, out: seq<int>, x: nat, y: nat)
    requires |samples| >= ns * nst && |matrix| >= nst * nst
  {
    && |out| == ns * nst
    && forall i :: 0 <= i < ns * nst && (i % ns < x || (i % ns == x && i / ns < y)) ==>
         out[i] == At(ns, nst, samples, matrix, i)
  }

  /** Storing the sum for column `x`, row `y` extends the filled part by one row. */
  lemma FilledStore(ns: nat, nst: nat, samples: seq<int>, matrix: seq<int>, out: seq<int>, x: nat, y: nat)
    requires |samples| >= ns * nst && |matrix| >= nst * nst
    requires x < ns && y < nst && Filled(ns, nst, samples, matrix, out, x, y)
    ensures x + y * ns < |out|
    ensures Filled(ns, nst, samples, matrix,
                   out[x + y * ns := RowSum(ns, nst, samples, matrix, x, y, nst)], x, y + 1)
  {
    Cell(ns, nst, x, y);
    var out' := out[x + y * ns := RowSum(ns, nst, samples, matrix, x, y, nst)];
    forall i | 0 <= i < ns * nst && (i % ns < x || (i % ns == x && i / ns < y + 1))
      ensures out'[i] == At(ns, nst, samples, matrix, i)
    {
      if i % ns == x && i / ns == y {
        SplitIndex(ns, nst, i);
      }
    }
  }

  /** A column whose every row is filled hands over to the next column. */
  lemma FilledColumn(ns: nat, nst: nat, samples: seq<int>, matrix: seq<int>, out: seq<int>, x: nat)
    requires |samples| >= ns * nst && |matrix| >= nst * nst
    requires Filled(ns, nst, samples, matrix, out, x, nst)
    ensures Filled(ns, nst, samples, matrix, out, x + 1, 0)
  {
    forall i | 0 <= i < ns * nst && i % ns < x + 1
      ensures out[i] == At(ns, nst, samples, matrix, i)
    {
      SplitIndex(ns, nst, i);
    }
  }

  /** Once every column is filled the vector is the reference result. */
  lemma FilledAll(ns: nat, nst: nat, samples: seq<int>, matrix: seq<int>, out: seq<int>)
    requires |samples| >= ns * nst && |matrix| >= nst * nst
    requires Filled(ns, nst, samples, matrix, out, ns, 0)
    ensures out == Reference(ns, nst, samples, matrix)
  {
    forall i | 0 <= i < ns * nst
      ensures out[i] == Reference(ns, nst, samples, matrix)[i]
    {
      SplitIndex(ns, nst, i);
    }
  }

  /** The innermost loop: accumulates the products over the `nst` streams. */
  method Accumulate(ns: nat, nst: nat, samples: seq<int>, matrix: seq<int>, x: nat, y: nat) returns (sum: int)
    requires |samples| >= ns * nst && |matrix| >= nst * nst
    requires x < ns && y < nst
    ensures sum == RowSum(ns, nst, samples, matrix, x, y, nst)
  {
    sum := 0;
    var k := 0;
    while k < nst
      invariant 0 <= k <= nst
      invariant sum == RowSum(ns, nst, samples, matrix, x, y, k)
    {
      InBounds(nst, ns, k, x);
      InBounds(nst, nst, y, k);
      sum := sum + samples[x + ns * k] * matrix[y * nst + k];
      k := k + 1;
    }
  }

  /** `reference_implementation`: a zeroed vector filled column by column, row by row. */
  method ReferenceImplementation(ns: nat, nst: nat, samples: seq<int>, matrix: seq<int>) returns (out: seq<int>)
    requires |samples| >= ns * nst && |matrix| >= nst * nst
    ensures out == Reference(ns, nst, samples, matrix)
  {
    var a := new int[ns * nst](_ => 0);
    var x := 0;
    while x < ns
      invariant 0 <= x <= ns
      invariant Filled(ns, nst, samples, matrix, a[..], x, 0)
    {
      var y := 0;
      while y < nst
        invariant 0 <= y <= nst
        invariant Filled(ns, nst, samples, matrix, a[..], x, y)
      {
        var sum := Accumulate(ns, nst, samples, matrix, x, y);
        FilledStore(ns, nst, samples, matrix, a[..], x, y);
        a[x + y * ns] := sum;
        y := y + 1;
      }
      FilledColumn(ns, nst, samples, matrix, a[..], x);
      x := x + 1;
    }
    FilledAll(ns, nst, samples, matrix, a[..]);
    out := a[..];
  }
}
