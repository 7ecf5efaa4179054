/** The SONGS table: `song_id` is the key and each song has seventeen attributes. `add`
    refuses a song whose attributes are all already stored and otherwise allocates the next
    numeric id. */
module SongTable {
  import opened Wrappers
  import opened Text
  import opened Errors
  import opened SqlHandler
  import opened Table

  const Columns: seq<string> := ["song_id", "genre", "artist_name", "song_name", "popularity",
    "acousticness", "danceability", "duration_ms", "energy", "instrumentalness", "key", "liveness",
    "loudness", "mode", "speechiness", "tempo", "time_signature", "valence"]

  /** Number of attribute columns after `song_id`. */
  const AttributeCount := 17

  /** SQL `=`: NULL equals nothing, and an integer equals the same real. */
  predicate SqlEq(a: Value, b: Value)
  {
    !a.Null? && !b.Null? && PyEq(a, b)
  }

  /** The row's attributes satisfy every `column = ?` of the duplicate search. */
  predicate SameSong(stored: seq<Value>, attrs: seq<Value>)
  {
    |stored| == |attrs| && forall i :: 0 <= i < |attrs| ==> SqlEq(stored[i], attrs[i])
  }

  /** The ids the duplicate search selects. */
  function Duplicates(rows: map<string, seq<Value>>, attrs: seq<Value>): set<string>
  {
    set id | id in rows && SameSong(rows[id], attrs)
  }

  /** The insert converts each value with `str`: a missing value is stored as `'None'`. */
  function Stored(v: Value): Value
  {
    if v.Null? then Str("None") else v
  }

  function StoredRow(attrs: seq<Value>): (r: seq<Value>)
    ensures |r| == |attrs| && forall i :: 0 <= i < |attrs| ==> r[i] == Stored(attrs[i])
  {
    seq(|attrs|, i requires 0 <= i < |attrs| => Stored(attrs[i]))
  }

  /** What `add` returns: the new id, or the search result naming the stored copies. */
  datatype Added = Inserted(id: string) | Duplicate(ids: set<string>)

  /** The text a value becomes in the `song_id` column, when the model tracks it. A real
      or a NULL key is not tracked, and the update is then treated as refused. */
  function KeyText(v: Value): Option<string>
  {
    match v
    case Str(s) => Some(s)
    case Int(i) => Some(IntToString(i))
    case _ => None
  }

  /** The table after `UPDATE SONGS SET column = value WHERE song_id = id`, for the column
      in position `i` of `Columns`; SQLite rejects a duplicate key or a NULL attribute and the
      handler swallows the error. */
  function Assign(rows: map<string, seq<Value>>, id: string, i: int, value: Value): map<string, seq<Value>>
    requires id in rows
  {
    var attrs := rows[id];
    if i == 0 then
      match KeyText(value)
      case None => rows
      case Some(k) => if k in rows then rows else (rows - {id})[k := attrs]
    else if 1 <= i <= |attrs| && !value.Null? then rows[id := attrs[i - 1 := value]]
    else rows
  }

  function IndexOf(s: seq<string>, x: string): (i: int)
    ensures -1 <= i < |s|
    ensures 0 <= i ==> s[i] == x
    ensures i == -1 <==> x !in s
  {
    if s == [] then -1
    else if s[0] == x then 0
    else
      var j := IndexOf(s[1..], x);
      assert s == [s[0]] + s[1..];
      if j == -1 then -1 else j + 1
  }

  /** An accepted update of an attribute changes that attribute of that song and nothing else;
      a NULL value changes nothing. */
  lemma AssignOnlyTouches(rows: map<string, seq<Value>>, id: string, i: int, value: Value)
    requires id in rows && 1 <= i <= |rows[id]|
    ensures var r := Assign(rows, id, i, value);
      r.Keys == rows.Keys
      && (forall b :: b in rows && b != id ==> r[b] == rows[b])
      && (value.Null? ==> r == rows)
      && (!value.Null? ==> r[id] == rows[id][i - 1 := value] && |r[id]| == |rows[id]|)
  {
  }

  /** Renaming a song keeps its attributes and every other song; it happens exactly when the
      new key is a tracked text not already in use. */
  lemma AssignRenames(rows: map<string, seq<Value>>, id: string, value: Value)
    requires id in rows
    ensures var r := Assign(rows, id, 0, value);
      (r != rows <==> KeyText(value).Some? && KeyText(value).value !in rows)
      && (r != rows ==> r.Keys == rows.Keys - {id} + {KeyText(value).value}
                        && r[KeyText(value).value] == rows[id]
                        && forall b :: b in rows && b != id ==> r[b] == rows[b])
  {
    var r := Assign(rows, id, 0, value);
    if KeyText(value).Some? && KeyText(value).value !in rows {
      assert KeyText(value).value in r && KeyText(value).value !in rows;
    }
  }

  /** Every update keeps each song at seventeen attributes. */
  lemma AssignKeepsArity(rows: map<string, seq<Value>>, id: string, i: int, value: Value)
    requires id in rows && forall b :: b in rows ==> |rows[b]| == AttributeCount
    ensures var r := Assign(rows, id, i, value);
      forall b :: b in r ==> |r[b]| == AttributeCount
  {
  }

  class SongTable {
    var rows: map<string, seq<Value>>

    predicate Valid()
      reads this
    {
      forall id :: id in rows ==> |rows[id]| == AttributeCount
    }

    /** The table as loaded from the catalogue. */
    constructor(existing: map<string, seq<Value>>)
      requires forall id :: id in existing ==> |existing[id]| == AttributeCount
      ensures rows == existing && Valid()
    {
      rows := existing;
    }

    /** `check_column_value_validity`: the column is known and the song exists. */
    function CheckColumnValueValidity(id: string, column: string): (valid: bool)
      reads this
      ensures valid <==> column in Columns && id in rows
    {
      column in Columns && (
        var holders := set s | s in rows && s == id;
        assert holders == if id in rows then {id} else {};
        LookupItemNotExist(id, |holders|);
        ItemNotExist(Str(id), LookupResult(id, |holders|)) == Ok(false))
    }

    /** `add`: a song whose seventeen attributes are all stored already is not inserted and
        the search result is returned (a single matching id with the empty text does not
        count as found); otherwise the song is inserted under the next id. */
    method Add(attrs: seq<Value>) returns (r: Result<Added, Error>)
      requires Valid()
      modifies this
      ensures Valid()
      ensures attrs == [] ==> r == Err(SQLException)
      ensures r.Err? ==> rows == old(rows)
      ensures r.Ok? && r.value.Duplicate? ==>
        rows == old(rows) && r.value.ids == Duplicates(old(rows), attrs) && r.value.ids != {} && r.value.ids != {""}
      ensures r.Ok? && r.value.Inserted? ==>
        |attrs| == AttributeCount && (Duplicates(old(rows), attrs) == {} || Duplicates(old(rows), attrs) == {""})
        && IsNextId(old(rows).Keys, r.value.id) && rows == old(rows)[r.value.id := StoredRow(attrs)]
      ensures |attrs| == AttributeCount && (Duplicates(old(rows), attrs) == {} || Duplicates(old(rows), attrs) == {""})
        ==> (r.Ok? <==> forall s :: s in old(rows).Keys ==> ParseInt(s).Some?)
    {
      if attrs == [] {
        return Err(SQLException);
      }
      var found := if |attrs| == AttributeCount then Duplicates(rows, attrs) else {};
      if found != {} && found != {""} {
        return Ok(Duplicate(found));
      }
      var id := NextId(rows.Keys);
      if id.Err? {
        assert exists s :: s in rows.Keys && ParseInt(s).None?;
        return Err(id.error);
      }
      if |attrs| != AttributeCount {
        return Err(ProgrammingError);
      }
      NextIdFresh(rows.Keys, id.value);
      rows := rows[id.value := StoredRow(attrs)];
      r := Ok(Inserted(id.value));
    }

    /** `update`: only a known column of an existing song is written. */
    method Update(id: string, column: string, value: Value)
      requires Valid()
      modifies this
      ensures Valid()
      ensures !old(CheckColumnValueValidity(id, column)) ==> rows == old(rows)
      ensures old(CheckColumnValueValidity(id, column)) ==> rows == Assign(old(rows), id, IndexOf(Columns, column), value)
    {
      if CheckColumnValueValidity(id, column) {
        var i := IndexOf(Columns, column);
        AssignKeepsArity(rows, id, i, value);
        rows := Assign(rows, id, i, value);
      }
    }

    /** `remove`: delete the song's row, with no existence check. */
    method Remove(id: string)
      modifies this
      requires Valid()
      ensures Valid()
      ensures rows == old(rows) - {id}
    {
      rows := rows - {id};
    }
  }
}
