/** The train/test split shared by the matrix-factorisation models: in every row of the data
    matrix a sample of the non-zero entries is moved from the training copy to the test
    matrix. The random sample is a parameter. */
module GeneralModel {
  import opened Wrappers
  import opened Errors

  /** `np.flatnonzero(x[row])` restricted to the first `n` columns, in column order. */
  function NonZero(x: array2<real>, row: nat, n: nat): (cols: seq<int>)
    requires row < x.Length0 && n <= x.Length1
    reads x
  {
    if n == 0 then []
    else NonZero(x, row, n - 1) + (if x[row, n - 1] != 0.0 then [n - 1] else [])
  }

  /** The non-zero columns of a row are exactly its columns holding a non-zero value. */
  lemma {:induction false} NonZeroMembership(x: array2<real>, row: nat, n: nat, j: int)
    requires row < x.Length0 && n <= x.Length1
    ensures j in NonZero(x, row, n) <==> 0 <= j < n && x[row, j] != 0.0
  {
    if n > 0 {
      NonZeroMembership(x, row, n - 1, j);
    }
  }

  /** The per-row sample size: a tenth of the number of ROWS (`int(10 * rows / 100)`) for a
      row with a non-zero entry, and nothing for an all-zero row. */
  function SampleSize(x: array2<real>, row: nat): nat
    requires row < x.Length0
    reads x
  {
    if |NonZero(x, row, x.Length1)| > 0 then x.Length0 / 10 else 0
  }

  /** Sampling without replacement can draw that many entries from the row. */
  predicate CanSample(x: array2<real>, row: nat)
    requires row < x.Length0
    reads x
  {
    SampleSize(x, row) <= |NonZero(x, row, x.Length1)|
  }

  /** A draw of `np.random.choice(nonzero, size, replace=False)`: the sample size, distinct
      entries, each a non-zero column of the row. */
  predicate IsSample(x: array2<real>, row: nat, c: seq<int>)
    requires row < x.Length0
    reads x
  {
    |c| == SampleSize(x, row)
    && (forall i, j :: 0 <= i < j < |c| ==> c[i] != c[j])
    && forall i :: 0 <= i < |c| ==> c[i] in NonZero(x, row, x.Length1)
  }

  /** The rows before `row` could all be sampled. */
  predicate SampledUpTo(x: array2<real>, row: nat)
    requires row <= x.Length0
    reads x
  {
    forall i :: 0 <= i < row ==> CanSample(x, i)
  }

  /** Every column of a valid draw is in range and holds a non-zero value. */
  lemma SampleInRange(x: array2<real>, row: nat, c: seq<int>)
    requires row < x.Length0 && IsSample(x, row, c)
    ensures forall i :: 0 <= i < |c| ==> 0 <= c[i] < x.Length1 && x[row, c[i]] != 0.0
  {
    forall i | 0 <= i < |c| ensures 0 <= c[i] < x.Length1 && x[row, c[i]] != 0.0 {
      NonZeroMembership(x, row, x.Length1, c[i]);
    }
  }

  /** `x.copy()` and `np.zeros(x.shape)`. */
  method CopyAndZeros(src: array2<real>) returns (copy: array2<real>, zeros: array2<real>)
    ensures fresh(copy) && fresh(zeros) && copy != zeros
    ensures copy.Length0 == zeros.Length0 == src.Length0 && copy.Length1 == zeros.Length1 == src.Length1
    ensures forall a, b :: 0 <= a < src.Length0 && 0 <= b < src.Length1 ==> copy[a, b] == src[a, b] && zeros[a, b] == 0.0
  {
    var m, n := src.Length0, src.Length1;
    copy := new real[m, n];
    zeros := new real[m, n];
    for i := 0 to m
      invariant forall a, b :: 0 <= a < i && 0 <= b < n ==> copy[a, b] == src[a, b] && zeros[a, b] == 0.0
    {
      for j := 0 to n
        invariant forall a, b :: 0 <= a < i && 0 <= b < n ==> copy[a, b] == src[a, b] && zeros[a, b] == 0.0
        invariant forall b :: 0 <= b < j ==> copy[i, b] == src[i, b] && zeros[i, b] == 0.0
      {
        copy[i, j] := src[i, j];
        zeros[i, j] := 0.0;
      }
    }
  }

  /** `test_set[row, c] = x[row, c]` and `train_set[row, c] = 0.0`: the drawn entries of one
      row move from the training copy to the test matrix. */
  method MoveToTest(src: array2<real>, train: array2<real>, test: array2<real>, row: nat, c: seq<int>)
    requires train != src && test != src && train != test
    requires row < src.Length0
    requires train.Length0 == test.Length0 == src.Length0 && train.Length1 == test.Length1 == src.Length1
    requires forall i :: 0 <= i < |c| ==> 0 <= c[i] < src.Length1
    modifies train, test
    ensures forall a, b :: 0 <= a < src.Length0 && a != row && 0 <= b < src.Length1 ==>
      train[a, b] == old(train[a, b]) && test[a, b] == old(test[a, b])
    ensures forall b :: 0 <= b < src.Length1 ==>
      train[row, b] == (if b in c then 0.0 else old(train[row, b]))
      && test[row, b] == (if b in c then src[row, b] else old(test[row, b]))
  {
    for k := 0 to |c|
      invariant forall a, b :: 0 <= a < src.Length0 && a != row && 0 <= b < src.Length1 ==>
        train[a, b] == old(train[a, b]) && test[a, b] == old(test[a, b])
      invariant forall b :: 0 <= b < src.Length1 ==>
        train[row, b] == (if b in c[..k] then 0.0 else old(train[row, b]))
        && test[row, b] == (if b in c[..k] then src[row, b] else old(test[row, b]))
    {
      test[row, c[k]] := src[row, c[k]];
      train[row, c[k]] := 0.0;
      assert forall b :: b in c[..k + 1] <==> b in c[..k] || b == c[k];
    }
    assert c[..|c|] == c;
  }

  class GeneralModel {
    var x: array2<real>
    var trainSet: array2?<real>
    var testSet: array2?<real>
    var matrixMask: Option<seq<seq<int>>>

    /** A model over the data matrix `x`, not yet split. */
    constructor(x: array2<real>)
      ensures this.x == x && trainSet == null && testSet == null && matrixMask == None
    {
      this.x := x;
      trainSet := null;
      testSet := null;
      matrixMask := None;
    }

    /** `split`: `choice[row]` is the random draw for `row`. The training set is a copy of
        `x` with the drawn entries set to 0, the test set is 0 except at the drawn entries,
        which hold `x`'s values, and the draws are the mask. A non-zero row with fewer
        non-zero entries than the sample size makes the draw fail with `ValueError`, leaving
        the mask with the rows before it and the two sets as they were. */
    method Split(choice: seq<seq<int>>) returns (r: Result<seq<seq<int>>, Error>)
      requires |choice| == x.Length0
      requires forall row :: 0 <= row < x.Length0 && CanSample(x, row) ==> IsSample(x, row, choice[row])
      modifies this
      ensures x == old(x)
      ensures r.Ok? <==> SampledUpTo(x, x.Length0)
      ensures r.Ok? ==>
        r.value == choice && matrixMask == Some(choice)
        && trainSet != null && testSet != null && fresh(trainSet) && fresh(testSet)
        && trainSet.Length0 == x.Length0 && trainSet.Length1 == x.Length1
        && testSet.Length0 == x.Length0 && testSet.Length1 == x.Length1
        && (forall i, j :: 0 <= i < x.Length0 && 0 <= j < x.Length1 ==>
              trainSet[i, j] == if j in choice[i] then 0.0 else x[i, j])
        && (forall i, j :: 0 <= i < x.Length0 && 0 <= j < x.Length1 ==>
              testSet[i, j] == if j in choice[i] then x[i, j] else 0.0)
        && (forall i, j :: 0 <= i < x.Length0 && 0 <= j < x.Length1 ==> trainSet[i, j] + testSet[i, j] == x[i, j])
      ensures r.Err? ==>
        r.error == ValueError && trainSet == old(trainSet) && testSet == old(testSet)
        && exists row :: 0 <= row < x.Length0 && SampledUpTo(x, row) && !CanSample(x, row)
                         && matrixMask == Some(choice[..row])
    {
      var src := x;
      var m, n := src.Length0, src.Length1;
      var train, test := CopyAndZeros(src);
      matrixMask := Some([]);
      for row := 0 to m
        invariant matrixMask == Some(choice[..row]) && x == src
        invariant trainSet == old(trainSet) && testSet == old(testSet)
        invariant SampledUpTo(src, row)
        invariant forall a, b :: 0 <= a < row && 0 <= b < n ==>
          train[a, b] == (if b in choice[a] then 0.0 else src[a, b]) && test[a, b] == (if b in choice[a] then src[a, b] else 0.0)
        invariant forall a, b :: row <= a < m && 0 <= b < n ==> train[a, b] == src[a, b] && test[a, b] == 0.0
      {
        if !CanSample(src, row) {
          return Err(ValueError);
        }
        var c := choice[row];
        SampleInRange(src, row, c);
        MoveToTest(src, train, test, row, c);
        assert choice[..row + 1] == choice[..row] + [c];
        matrixMask := Some(matrixMask.value + [c]);
      }
      assert choice[..m] == choice;
      trainSet := train;
      testSet := test;
      r := Ok(choice);
    }
  }
}
