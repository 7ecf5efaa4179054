/** The behaviour shared by every table: `search` with its not-exist warnings,
    `item_not_exist`, and the id allocation used by the tables that create ids. */
module Table {
  import opened Wrappers
  import opened Text
  import opened Errors
  import opened SqlHandler

  /** A `ColumnValueNotExistWarning` that is actually issued. */
  datatype Warning = ColumnValueNotExist(table: string, column: string, value: Value)

  /** The warnings of `search` for a WHERE list: one per triple, in order. */
  function TripleWarnings(table: string, w: seq<Cond>): seq<Warning>
  {
    if w == [] then []
    else
      var c := w[|w| - 1];
      TripleWarnings(table, w[..|w| - 1]) + (if c.Triple? then [ColumnValueNotExist(table, c.column, c.value)] else [])
  }

  predicate IsEmptyList(r: Shaped) { r == Rows([]) || r == Row([]) }

  /** The warning loop of `Table.search`: one warning per triple condition, in order,
      none when warnings are ignored. */
  method WarnTriples(table: string, where: seq<Cond>, ignore: bool) returns (warnings: seq<Warning>)
    ensures warnings == if ignore then [] else TripleWarnings(table, where)
  {
    warnings := [];
    for i := 0 to |where|
      invariant ignore ==> warnings == []
      invariant !ignore ==> warnings == TripleWarnings(table, where[..i])
    {
      assert where[..i + 1][..i] == where[..i];
      if where[i].Triple? && !ignore {
        warnings := warnings + [ColumnValueNotExist(table, where[i].column, where[i].value)];
      }
    }
    assert where[..|where|] == where;
  }

  /** `Table.search`: the handler's result is returned as it is; when it is an empty list
      and conditions were given, each triple condition warns (unless warnings are ignored)
      and connector strings are skipped. */
  method Search(table: string, rows: Shaped, conditions: Option<Conditions>, ignore: bool)
    returns (result: Shaped, warnings: seq<Warning>)
    ensures result == rows
    ensures warnings == if IsEmptyList(rows) && conditions.Some? && !ignore
                        then TripleWarnings(table, conditions.value.where) else []
  {
    warnings := [];
    if IsEmptyList(rows) && conditions.Some? {
      warnings := WarnTriples(table, conditions.value.where, ignore);
    }
    result := rows;
  }

  /** One warning per bound value of the query: the warned values are exactly the values
      `build_query` binds, in the same order. */
  lemma {:induction false} WarningsFollowValues(table: string, w: seq<Cond>)
    ensures |TripleWarnings(table, w)| == |WhereValues(w)|
    ensures forall i :: 0 <= i < |w| && w[i].Triple? ==> ColumnValueNotExist(table, w[i].column, w[i].value) in TripleWarnings(table, w)
    ensures forall i :: 0 <= i < |WhereValues(w)| ==> TripleWarnings(table, w)[i].value == WhereValues(w)[i]
    decreases |w|
  {
    if w != [] {
      var init := w[..|w| - 1];
      WarningsFollowValues(table, init);
      forall i | 0 <= i < |w| - 1 && w[i].Triple?
        ensures ColumnValueNotExist(table, w[i].column, w[i].value) in TripleWarnings(table, w)
      {
        assert init[i] == w[i];
      }
    }
  }

  /** `item_not_exist` over the result of `SELECT item FROM t WHERE item = ?`: a non-empty
      list is replaced by its first element before the `not in` test. */
  function ItemNotExist(id: Value, r: Shaped): Result<bool, Error>
  {
    match r
    case Scalar(v) => (match Contains(id, Scalar(v)) case Ok(b) => Ok(!b) case Err(e) => Err(e))
    case Row(items) =>
      if |items| != 0 then (match Contains(id, Scalar(items[0])) case Ok(b) => Ok(!b) case Err(e) => Err(e))
      else Ok(true)
    case Rows(rows) =>
      if |rows| != 0 then Ok(!(exists j :: 0 <= j < |rows[0]| && PyEq(id, rows[0][j]))) else Ok(true)
  }

  /** `item_not_exist` is true exactly when no row holds the id, however many rows hold it. */
  lemma LookupItemNotExist(v: string, k: nat)
    ensures ItemNotExist(Str(v), LookupResult(v, k)) == Ok(k == 0)
  {
    if k == 1 {
      SubstringOfItself(v);
    } else if k > 1 {
      var rows := seq(k, _ => [Str(v)]);
      assert rows[0][0] == Str(v);
    }
  }

  /** `user_and_song_exist` of the HISTORY and RATINGS tables: the user is in USERS and the
      song is in SONGS (both lookups are on the key, so at most one row holds each id). */
  function UserAndSongExist(users: set<string>, songs: set<string>, user: string, song: string): (b: bool)
    ensures b <==> user in users && song in songs
  {
    var userRows := if user in users then 1 else 0;
    var songRows := if song in songs then 1 else 0;
    LookupItemNotExist(user, userRows);
    LookupItemNotExist(song, songRows);
    ItemNotExist(Str(user), LookupResult(user, userRows)) == Ok(false)
    && ItemNotExist(Str(song), LookupResult(song, songRows)) == Ok(false)
  }

  /** `create_id`: `'0'` for the empty result list, otherwise one more than the given id. */
  function CreateId(last: Option<string>): (r: Result<string, Error>)
    ensures last.None? ==> r == Ok("0")
    ensures last.Some? && ParseInt(last.value).None? ==> r == Err(ValueError)
    ensures last.Some? && ParseInt(last.value).Some? ==> r.Ok? && ParseInt(r.value) == Some(ParseInt(last.value).value + 1)
  {
    match last
    case None => Ok("0")
    case Some(s) =>
      match ParseInt(s)
      case None => Err(ValueError)
      case Some(n) => ParseIntToString(n + 1); Ok(IntToString(n + 1))
  }

  /** `s` is numeric and no id of `ids` is numerically larger. */
  predicate IsLargestId(ids: set<string>, s: string)
  {
    ParseInt(s).Some? && forall t :: t in ids ==> ParseInt(t).Some? && ParseInt(t).value <= ParseInt(s).value
  }

  /** The id the tables allocate: `'0'` for an empty table, otherwise one more than the
      numerically largest id. */
  predicate IsNextId(ids: set<string>, id: string)
  {
    if ids == {} then id == "0"
    else exists s :: s in ids && IsLargestId(ids, s) && id == IntToString(ParseInt(s).value + 1)
  }

  /** A new id is numeric, larger than every existing id, and therefore not already used. */
  lemma NextIdFresh(ids: set<string>, id: string)
    requires IsNextId(ids, id)
    ensures id !in ids
    ensures ParseInt(id).Some?
    ensures forall t :: t in ids ==> ParseInt(t).value < ParseInt(id).value
  {
    if ids == {} {
      assert ParseInt("0") == Some(0) by { ParseIntToString(0); }
    } else {
      var s :| s in ids && IsLargestId(ids, s) && id == IntToString(ParseInt(s).value + 1);
      ParseIntToString(ParseInt(s).value + 1);
    }
  }

  /** The id allocation of `add`: read every id, sort them by their integer value and pass
      the last one to `create_id` (or the empty list when there is none). A non-numeric id
      makes the sort raise `ValueError`. */
  method NextId(ids: set<string>) returns (r: Result<string, Error>)
    ensures (exists s :: s in ids && ParseInt(s).None?) ==> r == Err(ValueError)
    ensures (forall s :: s in ids ==> ParseInt(s).Some?) ==> r.Ok? && IsNextId(ids, r.value)
  {
    if ids == {} {
      return CreateId(None);
    }
    var remaining := ids;
    var last: Option<string> := None;
    while remaining != {}
      invariant remaining <= ids
      invariant forall s :: s in ids - remaining ==> ParseInt(s).Some?
      invariant last.None? <==> remaining == ids
      invariant last.Some? ==> last.value in ids && IsLargestId(ids - remaining, last.value)
      decreases remaining
    {
      var s :| s in remaining;
      if ParseInt(s).None? {
        return Err(ValueError);
      }
      if last.None? || ParseInt(last.value).value <= ParseInt(s).value {
        last := Some(s);
      }
      remaining := remaining - {s};
    }
    r := CreateId(last);
  }
}
