/** The relevance recommender: songs ranked by the requested numeric columns of a table,
    each column min-max scaled, the top rows' scores written into the recommender's running
    result. The rows the ranking query returns are a parameter. */
module RelevanceBasedRS {
  import opened Wrappers
  import opened Text
  import opened Errors
  import opened OrderedDict
  import opened RSWeighter

  /** `column + ' DESC'` for every requested column. */
  function Descending(columns: seq<string>): (d: seq<string>)
    ensures |d| == |columns| && forall i :: 0 <= i < |columns| ==> d[i] == columns[i] + " DESC"
  {
    seq(|columns|, i requires 0 <= i < |columns| => columns[i] + " DESC")
  }

  /** `''.join([c + ' DESC, ' for c in columns])[:-2]`. */
  function OrderBy(columns: seq<string>): string
  {
    DropLastTwo(Suffixed(Descending(columns), ", "))
  }

  /** The ORDER BY text is the descending columns joined with `, `. */
  lemma OrderByJoin(columns: seq<string>)
    ensures OrderBy(columns) == Join(Descending(columns), ", ")
  {
    SuffixedJoin(Descending(columns), ", ");
  }

  /** The ranking query. */
  function RankingSql(table: string, columns: seq<string>): string
  {
    "SELECT song_id, " + OrderBy(columns) + " FROM " + table + " ORDER BY " + OrderBy(columns)
  }

  /** The first requested column that is not numeric, if any. */
  function FirstNotNumeric(columns: seq<string>, numeric: seq<string>): (r: Option<string>)
    ensures r.None? <==> forall i :: 0 <= i < |columns| ==> columns[i] in numeric
    ensures r.Some? ==> exists i :: 0 <= i < |columns| && columns[i] == r.value && columns[i] !in numeric
                                     && forall j :: 0 <= j < i ==> columns[j] in numeric
  {
    if columns == [] then None
    else if columns[0] !in numeric then Some(columns[0])
    else
      var r := FirstNotNumeric(columns[1..], numeric);
      assert forall i :: 0 <= i < |columns[1..]| ==> columns[1..][i] == columns[i + 1];
      r
  }

  /** A non-numeric column with only numeric columns before it is the one reported. */
  lemma {:induction false} FirstNotNumericAt(columns: seq<string>, numeric: seq<string>, i: nat)
    requires i < |columns| && columns[i] !in numeric
    requires forall j :: 0 <= j < i ==> columns[j] in numeric
    ensures FirstNotNumeric(columns, numeric) == Some(columns[i])
  {
    if i > 0 {
      FirstNotNumericAt(columns[1..], numeric, i - 1);
    }
  }

  /** A row of the query result: the song id and one value per requested column. */
  type Row = (string, seq<real>)

  predicate Rectangular(rows: seq<Row>, k: nat)
  {
    forall i :: 0 <= i < |rows| ==> |rows[i].1| == k
  }

  function Max(a: real, b: real): real { if a >= b then a else b }
  function Min(a: real, b: real): real { if a <= b then a else b }

  /** The largest value of column `c`. */
  function ColumnMax(rows: seq<Row>, c: nat): (m: real)
    requires |rows| > 0 && forall i :: 0 <= i < |rows| ==> c < |rows[i].1|
    ensures forall i :: 0 <= i < |rows| ==> rows[i].1[c] <= m
    ensures exists i :: 0 <= i < |rows| && rows[i].1[c] == m
  {
    if |rows| == 1 then rows[0].1[c]
    else
      var m := ColumnMax(rows[..|rows| - 1], c);
      var r := Max(m, rows[|rows| - 1].1[c]);
      assert forall i :: 0 <= i < |rows| - 1 ==> rows[..|rows| - 1][i] == rows[i];
      r
  }

  /** The smallest value of column `c`. */
  function ColumnMin(rows: seq<Row>, c: nat): (m: real)
    requires |rows| > 0 && forall i :: 0 <= i < |rows| ==> c < |rows[i].1|
    ensures forall i :: 0 <= i < |rows| ==> m <= rows[i].1[c]
    ensures exists i :: 0 <= i < |rows| && rows[i].1[c] == m
  {
    if |rows| == 1 then rows[0].1[c]
    else
      var m := ColumnMin(rows[..|rows| - 1], c);
      var r := Min(m, rows[|rows| - 1].1[c]);
      assert forall i :: 0 <= i < |rows| - 1 ==> rows[..|rows| - 1][i] == rows[i];
      r
  }

  /** `(x - x.min()) / (x.max() - x.min())`; a constant column is mapped to 0. */
  function Scale(v: real, lo: real, hi: real): real
  {
    if hi == lo then 0.0 else (v - lo) / (hi - lo)
  }

  /** Every requested column of every row, min-max scaled over its column. */
  function Scaled(rows: seq<Row>, k: nat): (s: seq<Row>)
    requires Rectangular(rows, k)
    ensures |s| == |rows| && Rectangular(s, k)
    ensures forall i :: 0 <= i < |rows| ==> s[i].0 == rows[i].0
  {
    seq(|rows|, i requires 0 <= i < |rows| =>
      (rows[i].0, seq(k, c requires 0 <= c < k => Scale(rows[i].1[c], ColumnMin(rows, c), ColumnMax(rows, c)))))
  }

  /** A share of a positive whole lies between 0 and 1, and the whole itself is 1. */
  lemma ShareBounds(x: real, d: real)
    requires 0.0 <= x <= d && d > 0.0
    ensures 0.0 <= x / d <= 1.0
    ensures x == d ==> x / d == 1.0
  {
    assert x / d * d == x;
  }

  /** Min-max scaling maps `[lo, hi]` onto `[0, 1]`, `hi` to 1 and `lo` to 0. */
  lemma ScaleRange(v: real, lo: real, hi: real)
    requires lo <= v <= hi && lo < hi
    ensures 0.0 <= Scale(v, lo, hi) <= 1.0
    ensures v == hi ==> Scale(v, lo, hi) == 1.0
    ensures v == lo ==> Scale(v, lo, hi) == 0.0
  {
    ShareBounds(v - lo, hi - lo);
  }

  /** One scaled value, read out of the table. */
  lemma ScaledAt(rows: seq<Row>, k: nat, c: nat, i: nat)
    requires Rectangular(rows, k) && c < k && i < |rows|
    ensures Scaled(rows, k)[i].1[c] == Scale(rows[i].1[c], ColumnMin(rows, c), ColumnMax(rows, c))
  {
  }

  /** After scaling, a column's largest value becomes 1, its smallest 0, and every value
      lies between them (a column with at least two distinct values). */
  lemma ScaledRange(rows: seq<Row>, k: nat, c: nat, i: nat)
    requires Rectangular(rows, k) && c < k && i < |rows|
    requires ColumnMin(rows, c) < ColumnMax(rows, c)
    ensures 0.0 <= Scaled(rows, k)[i].1[c] <= 1.0
    ensures rows[i].1[c] == ColumnMax(rows, c) ==> Scaled(rows, k)[i].1[c] == 1.0
    ensures rows[i].1[c] == ColumnMin(rows, c) ==> Scaled(rows, k)[i].1[c] == 0.0
  {
    var lo, hi := ColumnMin(rows, c), ColumnMax(rows, c);
    var v := rows[i].1[c];
    assert lo <= v <= hi;
    ScaledAt(rows, k, c, i);
    ScaleRange(v, lo, hi);
  }

  /** One row written into the result: every column assigned in turn, so the last one stays. */
  function PutRow(d: Dict, row: Row): Dict
  {
    if row.1 == [] then d else Put(d, row.0, row.1[|row.1| - 1])
  }

  /** The result after the first `n` scaled rows. */
  function Filled(d: Dict, rows: seq<Row>, n: nat): Dict
    requires n <= |rows|
  {
    if n == 0 then d else PutRow(Filled(d, rows, n - 1), rows[n - 1])
  }

  /** Each of the first `n` songs (ids being distinct) scores the value of its last column. */
  lemma {:induction false} FilledHit(d: Dict, rows: seq<Row>, n: nat, i: nat)
    requires i < n <= |rows| && |rows[i].1| > 0
    requires forall a, b :: 0 <= a < b < |rows| ==> rows[a].0 != rows[b].0
    ensures Get(Filled(d, rows, n), rows[i].0) == Some(rows[i].1[|rows[i].1| - 1])
  {
    if i < n - 1 {
      FilledHit(d, rows, n - 1, i);
      assert rows[n - 1].0 != rows[i].0;
    }
  }

  /** A song outside the first `n` rows keeps the score it had: the result is never cleared. */
  lemma {:induction false} FilledMiss(d: Dict, rows: seq<Row>, n: nat, song: string)
    requires n <= |rows|
    requires forall i :: 0 <= i < n ==> rows[i].0 != song
    ensures Get(Filled(d, rows, n), song) == Get(d, song)
  {
    if n > 0 {
      var prev := Filled(d, rows, n - 1);
      FilledMiss(d, rows, n - 1, song);
      assert rows[n - 1].0 != song;
      assert Get(PutRow(prev, rows[n - 1]), song) == Get(prev, song);
    }
  }

  class RelevanceBasedRS {
    const table: string
    const numericColumns: seq<string>
    var recSongs: Dict

    /** A recommender over `table`, whose numeric columns are `numeric`. */
    constructor(table: string, numeric: seq<string>)
      ensures this.table == table && numericColumns == numeric && recSongs == []
    {
      this.table := table;
      numericColumns := numeric;
      recSongs := [];
    }

    /** The column check of `recommend_songs`: the first requested column that is not numeric. */
    method CheckNumeric(columns: seq<string>) returns (bad: Option<string>)
      ensures bad == FirstNotNumeric(columns, numericColumns)
    {
      for i := 0 to |columns|
        invariant forall j :: 0 <= j < i ==> columns[j] in numericColumns
      {
        if columns[i] !in numericColumns {
          FirstNotNumericAt(columns, numericColumns, i);
          return Some(columns[i]);
        }
      }
      return None;
    }

    /** The inner loop of `recommend_songs`: every value of the row is written under the
        song's id in turn, so the last one stays. */
    method PutValues(song: string, values: seq<real>)
      modifies this
      ensures recSongs == PutRow(old(recSongs), (song, values))
    {
      ghost var before := recSongs;
      for idx := 1 to |values| + 1
        invariant recSongs == PutRow(before, (song, values[..idx - 1]))
      {
        if idx > 1 {
          PutPut(before, song, values[idx - 2], values[idx - 1]);
        }
        recSongs := Put(recSongs, song, values[idx - 1]);
      }
      assert values[..|values|] == values;
    }

    /** The row loop of `recommend_songs`: the first `count` rows are written in order; a
        row index past the end fails, after the writes before it. */
    method FillRows(scaled: seq<Row>, count: nat) returns (r: Result<Dict, Error>)
      modifies this
      ensures count <= |scaled| ==> r == Ok(recSongs) && recSongs == Filled(old(recSongs), scaled, count)
      ensures count > |scaled| ==> r == Err(IndexError) && recSongs == Filled(old(recSongs), scaled, |scaled|)
    {
      var base := recSongs;
      for row := 0 to count
        invariant row <= |scaled| && recSongs == Filled(base, scaled, row)
      {
        if row >= |scaled| {
          return Err(IndexError);
        }
        PutValues(scaled[row].0, scaled[row].1);
      }
      r := Ok(recSongs);
    }

    /** `recommend_songs`: a non-numeric column is refused before any query. With no columns
        the query text is invalid SQL; the handler reports the error and the search finds no
        rows. A single result row is flattened by `search` and cannot be framed. Otherwise the
        first `n` scaled rows are written into the running result, which is never cleared;
        asking for more rows than there are fails once the rows run out, after the writes
        before it. */
    method RecommendSongs(columns: seq<string>, n: int, rows: seq<Row>) returns (r: Result<Dict, Error>)
      requires Rectangular(rows, |columns|)
      modifies this
      ensures FirstNotNumeric(columns, numericColumns).Some? ==>
        r == Err(ColumnNameTypeNotNumber(FirstNotNumeric(columns, numericColumns).value)) && recSongs == old(recSongs)
      ensures FirstNotNumeric(columns, numericColumns).None? && columns == [] ==>
        recSongs == old(recSongs) && r == if n <= 0 then Ok(recSongs) else Err(IndexError)
      ensures FirstNotNumeric(columns, numericColumns).None? && columns != [] && |rows| == 1 ==>
        r == Err(ValueError) && recSongs == old(recSongs)
      ensures FirstNotNumeric(columns, numericColumns).None? && columns != [] && |rows| != 1 ==>
        if n <= |rows| then r == Ok(recSongs) && recSongs == Filled(old(recSongs), Scaled(rows, |columns|), if n < 0 then 0 else n)
        else r == Err(IndexError) && recSongs == Filled(old(recSongs), Scaled(rows, |columns|), |rows|)
    {
      var bad := CheckNumeric(columns);
      if bad.Some? {
        return Err(ColumnNameTypeNotNumber(bad.value));
      }
      if columns == [] {
        r := FillRows([], if n < 0 then 0 else n);
        return;
      }
      if |rows| == 1 {
        return Err(ValueError);
      }
      r := FillRows(Scaled(rows, |columns|), if n < 0 then 0 else n);
    }
  }
}
