/** The script that scans the ratings CSV rows for the largest and smallest user and song
    ids. The rows are given as lists of fields; the header row is skipped. */
module RatingsCountUniqueId {
  import opened Wrappers
  import opened Text
  import opened Errors

  /** A row the script counts: neither field is the header's column name. */
  predicate IsCounted(row: seq<string>)
    requires |row| >= 2
  {
    row[0] != "user_id" && row[1] != "song_id"
  }

  /** The rows up to the first failure can be read: two fields, and numeric ids when counted. */
  predicate Readable(row: seq<string>)
  {
    |row| >= 2 && (IsCounted(row) ==> ParseInt(row[0]).Some? && ParseInt(row[1]).Some?)
  }

  /** Row `i` is the first unreadable row, and `e` is what reading it raises. */
  predicate FirstFailure(rows: seq<seq<string>>, i: nat, e: Error)
    requires i < |rows|
  {
    (forall j :: 0 <= j < i ==> Readable(rows[j])) && !Readable(rows[i])
    && e == if |rows[i]| < 2 then IndexError else ValueError
  }

  /** A running maximum and minimum, `None` until the first id. */
  datatype Range = Range(max: Option<int>, min: Option<int>)

  /** The range after one more id. */
  function Widen(r: Range, id: int): (w: Range)
  {
    Range(if r.max.None? || r.max.value < id then Some(id) else r.max,
          if r.min.None? || r.min.value > id then Some(id) else r.min)
  }

  /** The id a readable row contributes to a column: none for the header. */
  function RowIds(row: seq<string>, col: nat): seq<int>
    requires col < 2 && Readable(row)
  {
    if IsCounted(row) then [ParseInt(row[col]).value] else []
  }

  /** The range after one readable row. */
  function Absorb(r: Range, row: seq<string>, col: nat): Range
    requires col < 2 && Readable(row)
  {
    if IsCounted(row) then Widen(r, ParseInt(row[col]).value) else r
  }

  /** The ids of a column over the counted rows. */
  function CountedIds(rows: seq<seq<string>>, col: nat): (ids: seq<int>)
    requires col < 2 && forall i :: 0 <= i < |rows| ==> Readable(rows[i])
  {
    if rows == [] then []
    else
      var row := rows[|rows| - 1];
      assert Readable(row);
      CountedIds(rows[..|rows| - 1], col) + RowIds(row, col)
  }

  /** A range that is exactly the bounds of `ids`: `None` for no ids, otherwise the largest
      and smallest, each one of the ids. */
  predicate Bounds(r: Range, ids: seq<int>)
  {
    (r.max.None? <==> ids == []) && (r.min.None? <==> ids == [])
    && (r.max.Some? ==> r.max.value in ids && forall i :: 0 <= i < |ids| ==> ids[i] <= r.max.value)
    && (r.min.Some? ==> r.min.value in ids && forall i :: 0 <= i < |ids| ==> r.min.value <= ids[i])
  }

  lemma WidenBounds(r: Range, ids: seq<int>, id: int)
    requires Bounds(r, ids)
    ensures Bounds(Widen(r, id), ids + [id])
  {
  }

  /** Absorbing a row keeps the range the bounds of the ids so far. */
  lemma AbsorbBounds(r: Range, ids: seq<int>, row: seq<string>, col: nat)
    requires col < 2 && Readable(row) && Bounds(r, ids)
    ensures Bounds(Absorb(r, row, col), ids + RowIds(row, col))
  {
    if IsCounted(row) {
      WidenBounds(r, ids, ParseInt(row[col]).value);
    } else {
      assert ids + [] == ids;
    }
  }

  /** One more readable row adds its ids. */
  lemma CountedIdsStep(rows: seq<seq<string>>, i: nat, col: nat)
    requires col < 2 && i < |rows| && forall j :: 0 <= j <= i ==> Readable(rows[j])
    ensures CountedIds(rows[..i + 1], col) == CountedIds(rows[..i], col) + RowIds(rows[i], col)
  {
    assert rows[..i + 1][..i] == rows[..i];
  }

  /** One readable row keeps both ranges the bounds of the ids counted so far. */
  lemma ScanStep(rows: seq<seq<string>>, i: nat, users: Range, songs: Range)
    requires i < |rows| && forall j :: 0 <= j <= i ==> Readable(rows[j])
    requires Bounds(users, CountedIds(rows[..i], 0)) && Bounds(songs, CountedIds(rows[..i], 1))
    ensures Bounds(Absorb(users, rows[i], 0), CountedIds(rows[..i + 1], 0))
    ensures Bounds(Absorb(songs, rows[i], 1), CountedIds(rows[..i + 1], 1))
  {
    CountedIdsStep(rows, i, 0);
    CountedIdsStep(rows, i, 1);
    AbsorbBounds(users, CountedIds(rows[..i], 0), rows[i], 0);
    AbsorbBounds(songs, CountedIds(rows[..i], 1), rows[i], 1);
  }

  /** The first unreadable row decides the error, and not every row is readable. */
  lemma ScanFails(rows: seq<seq<string>>, i: nat, e: Error)
    requires i < |rows| && forall j :: 0 <= j < i ==> Readable(rows[j])
    requires !Readable(rows[i]) && e == if |rows[i]| < 2 then IndexError else ValueError
    ensures exists k :: 0 <= k < |rows| && FirstFailure(rows, k, e)
    ensures !forall k :: 0 <= k < |rows| ==> Readable(rows[k])
  {
    assert FirstFailure(rows, i, e);
  }

  /** After the last row the ranges bound all the counted ids. */
  lemma ScanDone(rows: seq<seq<string>>, users: Range, songs: Range)
    requires forall j :: 0 <= j < |rows| ==> Readable(rows[j])
    requires Bounds(users, CountedIds(rows[..|rows|], 0)) && Bounds(songs, CountedIds(rows[..|rows|], 1))
    ensures Bounds(users, CountedIds(rows, 0)) && Bounds(songs, CountedIds(rows, 1))
  {
    assert rows[..|rows|] == rows;
  }

  /** The body of the scan for one row: the error it raises, or the two widened ranges. */
  method ScanRow(row: seq<string>, users: Range, songs: Range) returns (r: Result<(Range, Range), Error>)
    ensures r.Ok? <==> Readable(row)
    ensures r.Err? ==> r.error == if |row| < 2 then IndexError else ValueError
    ensures r.Ok? ==> r.value == (Absorb(users, row, 0), Absorb(songs, row, 1))
  {
    if |row| < 2 {
      return Err(IndexError);
    }
    if row[0] != "user_id" && row[1] != "song_id" {
      var userId := ParseInt(row[0]);
      if userId.None? {
        return Err(ValueError);
      }
      var songId := ParseInt(row[1]);
      if songId.None? {
        return Err(ValueError);
      }
      return Ok((Widen(users, userId.value), Widen(songs, songId.value)));
    }
    return Ok((users, songs));
  }

  /** The scan: `row[0]` and `row[1]` of a short row raise `IndexError` and `int` of a
      non-numeric id raises `ValueError`; otherwise the user range and the song range are
      the bounds of the counted ids. */
  method Scan(rows: seq<seq<string>>) returns (r: Result<(Range, Range), Error>)
    ensures r.Ok? <==> forall i :: 0 <= i < |rows| ==> Readable(rows[i])
    ensures r.Err? ==> exists i :: 0 <= i < |rows| && FirstFailure(rows, i, r.error)
    ensures r.Ok? ==> Bounds(r.value.0, CountedIds(rows, 0)) && Bounds(r.value.1, CountedIds(rows, 1))
  {
    var users := Range(None, None);
    var songs := Range(None, None);
    for i := 0 to |rows|
      invariant forall j :: 0 <= j < i ==> Readable(rows[j])
      invariant Bounds(users, CountedIds(rows[..i], 0)) && Bounds(songs, CountedIds(rows[..i], 1))
    {
      var step := ScanRow(rows[i], users, songs);
      if step.Err? {
        ScanFails(rows, i, step.error);
        return Err(step.error);
      }
      ScanStep(rows, i, users, songs);
      users, songs := step.value.0, step.value.1;
    }
    ScanDone(rows, users, songs);
    r := Ok((users, songs));
  }
}
