/** The SQL layer of the data handlers: the query text `build_query` assembles from a
    structured description, the input shapes `sql_operation_handler` accepts, the shaping
    of `search` results, the statement text of `insert` and `alter`, and the column
    helpers. The database is replaced by the rows a statement would return. */
module SqlHandler {
  import opened Wrappers
  import opened Text
  import opened Errors

  /** A value bound to a `?` placeholder or read back from a column. */
  datatype Value = Str(s: string) | Int(i: int) | Float(r: real) | Null

  /** One element of the WHERE list: a `(column, operator, value)` triple, or a bare
      connector string such as `AND` that is copied into the text. */
  datatype Cond = Triple(column: string, op: string, value: Value) | Connector(text: string)

  /** One element of the target tuple: a plain value (a column name, for SELECT and for a
      single assignment) or a `(column, value)` pair (for a multi-column UPDATE). */
  datatype Item = Atom(v: Value) | Pair(column: string, value: Value)

  /** The `conditions` argument: `(targets, where list)`. */
  datatype Conditions = Conditions(targets: seq<Item>, where: seq<Cond>)

  /** An SQL text and the tuple bound to its placeholders. */
  datatype Statement = Statement(sql: string, values: seq<Value>)

  // ---------------------------------------------------------------- build_query

  function CondText(c: Cond): string
  {
    match c
    case Triple(column, op, _) => column + " " + op + " ? "
    case Connector(text) => text + " "
  }

  /** The condition text: each element's text in order. */
  function WhereText(w: seq<Cond>): string
  {
    if w == [] then "" else WhereText(w[..|w| - 1]) + CondText(w[|w| - 1])
  }

  /** The values of the triples, in order. */
  function WhereValues(w: seq<Cond>): seq<Value>
  {
    if w == [] then [] else WhereValues(w[..|w| - 1]) + (if w[|w| - 1].Triple? then [w[|w| - 1].value] else [])
  }

  predicate IsColumnName(t: Item) { t.Atom? && t.v.Str? }

  predicate AllColumnNames(ts: seq<Item>) { forall i :: 0 <= i < |ts| ==> IsColumnName(ts[i]) }

  function ColumnNames(ts: seq<Item>): seq<string>
    requires AllColumnNames(ts)
  {
    seq(|ts|, i requires 0 <= i < |ts| => ts[i].v.s)
  }

  /** Python's `column, value = condition` on one element of a longer target tuple: a pair
      unpacks, a two-character string unpacks into its two characters, any other string has
      the wrong number of items (`ValueError`) and any other value is not iterable
      (`TypeError`). */
  function Unpack(t: Item): Result<(string, Value), Error>
  {
    match t
    case Pair(column, value) => Ok((column, value))
    case Atom(v) =>
      if !v.Str? then Err(TypeError)
      else if |v.s| == 2 then Ok((v.s[..1], Str(v.s[1..])))
      else Err(ValueError)
  }

  /** The targets unpacked in order, or the error of the first one that does not unpack. */
  function UnpackAll(ts: seq<Item>): Result<seq<(string, Value)>, Error>
  {
    if ts == [] then Ok([])
    else
      var init := UnpackAll(ts[..|ts| - 1]);
      var last := Unpack(ts[|ts| - 1]);
      if init.Err? then init
      else if last.Err? then Err(last.error)
      else Ok(init.value + [last.value])
  }

  function Assignments(ps: seq<(string, Value)>): seq<string>
  {
    seq(|ps|, i requires 0 <= i < |ps| => ps[i].0 + " = ?")
  }

  function PairValues(ps: seq<(string, Value)>): seq<Value>
  {
    seq(|ps|, i requires 0 <= i < |ps| => ps[i].1)
  }

  /** The SELECT text: the target columns joined by `, `, and a WHERE clause only when the
      condition text is not empty. */
  function SelectQuery(table: string, targets: seq<Item>, where: seq<Cond>): Result<Statement, Error>
  {
    if AllColumnNames(targets) then
      var head := "SELECT " + Join(ColumnNames(targets), ", ") + " FROM " + table;
      var wt := WhereText(where);
      Ok(Statement(if wt != "" then head + " WHERE " + wt else head, WhereValues(where)))
    else Err(TypeError)
  }

  /** The SET part of an UPDATE: the unpacked targets when there are more than two of them,
      otherwise the targets read as a single `(column, value)` tuple. */
  function SetPart(targets: seq<Item>): Result<(string, seq<Value>), Error>
  {
    if |targets| > 2 then
      var ps := UnpackAll(targets);
      if ps.Err? then Err(ps.error) else Ok((Join(Assignments(ps.value), ", "), PairValues(ps.value)))
    else if |targets| == 0 then Err(IndexError)
    else if !IsColumnName(targets[0]) then Err(TypeError)
    else if |targets| == 1 then Err(IndexError)
    else if targets[1].Pair? then Err(TypeError)
    else Ok((targets[0].v.s + " = ?", [targets[1].v]))
  }

  /** What `build_query` produces: the statement, or the exception it raises. */
  function Query(table: string, opt: string, targets: seq<Item>, where: seq<Cond>): Result<Statement, Error>
  {
    if opt == "SELECT" then SelectQuery(table, targets, where)
    else if opt == "DELETE" then Ok(Statement("DELETE FROM " + table + " WHERE " + WhereText(where), WhereValues(where)))
    else if opt == "UPDATE" then
      match SetPart(targets)
      case Err(e) => Err(e)
      case Ok((text, values)) =>
        Ok(Statement("UPDATE " + table + " SET " + text + " WHERE " + WhereText(where), values + WhereValues(where)))
    else Err(SQLException)
  }

  /** The loop over the WHERE list of `build_query`. */
  method WhereClause(where: seq<Cond>) returns (condition: string, values: seq<Value>)
    ensures condition == WhereText(where) && values == WhereValues(where)
  {
    condition := "";
    values := [];
    for i := 0 to |where|
      invariant condition == WhereText(where[..i])
      invariant values == WhereValues(where[..i])
    {
      assert where[..i + 1][..i] == where[..i];
      condition := condition + CondText(where[i]);
      if where[i].Triple? {
        values := values + [where[i].value];
      }
    }
    assert where[..|where|] == where;
  }

  /** Once a prefix of the targets fails to unpack, the whole tuple fails with its error. */
  lemma {:induction false} UnpackAllStops(ts: seq<Item>, j: nat)
    requires j <= |ts| && UnpackAll(ts[..j]).Err?
    ensures UnpackAll(ts) == UnpackAll(ts[..j])
    decreases |ts|
  {
    if j == |ts| {
      assert ts[..j] == ts;
    } else {
      var init := ts[..|ts| - 1];
      assert init[..j] == ts[..j];
      UnpackAllStops(init, j);
    }
  }

  /** The loop over a longer target tuple succeeds exactly when every target unpacks, and
      then yields each target's column and value in order; otherwise it raises the error of
      the first target that does not unpack. */
  lemma {:induction false} UnpackAllFacts(ts: seq<Item>)
    ensures UnpackAll(ts).Ok? <==> forall i :: 0 <= i < |ts| ==> Unpack(ts[i]).Ok?
    ensures UnpackAll(ts).Ok? ==>
      |UnpackAll(ts).value| == |ts| && forall i :: 0 <= i < |ts| ==> UnpackAll(ts).value[i] == Unpack(ts[i]).value
    ensures UnpackAll(ts).Err? ==>
      exists i :: 0 <= i < |ts| && Unpack(ts[i]) == Err(UnpackAll(ts).error)
        && forall j :: 0 <= j < i ==> Unpack(ts[j]).Ok?
    decreases |ts|
  {
    if ts != [] {
      var init := ts[..|ts| - 1];
      assert forall i :: 0 <= i < |init| ==> init[i] == ts[i];
      UnpackAllFacts(init);
      if UnpackAll(init).Ok? && Unpack(ts[|ts| - 1]).Err? {
        assert Unpack(ts[|ts| - 1]) == Err(UnpackAll(ts).error);
      }
    }
  }

  /** Three targets: a two-character string unpacks into a one-character column and a
      one-character value. */
  lemma SetPartTwoCharacters(s: string, c: string, v: Value, e: string, w: Value)
    requires |s| == 2
    ensures SetPart([Atom(Str(s)), Pair(c, v), Pair(e, w)])
         == Ok(([s[0]] + " = ?" + ", " + c + " = ?" + ", " + e + " = ?", [Str([s[1]]), v, w]))
  {
    var ts := [Atom(Str(s)), Pair(c, v), Pair(e, w)];
    var p0 := ([s[0]], Str([s[1]]));
    assert Unpack(ts[0]) == Ok(p0) by {
      assert s[..1] == [s[0]] && s[1..] == [s[1]];
    }
    assert UnpackAll(ts[..1]) == Ok([p0]) by {
      assert ts[..1][..0] == [] && ts[..1][0] == ts[0];
      assert UnpackAll([]) == Ok([]);
      assert [] + [p0] == [p0];
    }
    assert UnpackAll(ts[..2]) == Ok([p0, (c, v)]) by {
      assert ts[..2][..1] == ts[..1] && ts[..2][1] == ts[1];
      assert Unpack(ts[1]) == Ok((c, v));
      assert [p0] + [(c, v)] == [p0, (c, v)];
    }
    assert UnpackAll(ts) == Ok([p0, (c, v), (e, w)]) by {
      assert ts[..2] == ts[..|ts| - 1];
      assert Unpack(ts[2]) == Ok((e, w));
      assert [p0, (c, v)] + [(e, w)] == [p0, (c, v), (e, w)];
    }
    var parts := Assignments([p0, (c, v), (e, w)]);
    assert parts == [[s[0]] + " = ?", c + " = ?", e + " = ?"];
    assert Join(parts[2..], ", ") == e + " = ?";
    assert Join(parts[1..], ", ") == c + " = ?" + ", " + Join(parts[2..], ", ") by {
      assert parts[1..][1..] == parts[2..];
    }
    assert Join(parts, ", ") == [s[0]] + " = ?" + ", " + Join(parts[1..], ", ");
    assert PairValues([p0, (c, v), (e, w)]) == [Str([s[1]]), v, w];
    var a0, a1, a2 := [s[0]] + " = ?" + ", ", c + " = ?" + ", ", e + " = ?";
    assert Join(parts, ", ") == a0 + (a1 + a2);
    assert a0 + (a1 + a2) == [s[0]] + " = ?" + ", " + c + " = ?" + ", " + e + " = ?";
  }

  /** Three targets: a string of any other length has the wrong number of items, and a
      number cannot be unpacked at all. */
  lemma SetPartUnpackErrors(s: string, v: Value)
    requires |s| != 2 && !v.Str?
    ensures SetPart([Atom(Str(s)), Pair("c", Int(1)), Pair("e", Int(2))]) == Err(ValueError)
    ensures SetPart([Atom(v), Pair("c", Int(1)), Pair("e", Int(2))]) == Err(TypeError)
  {
    UnpackAllStops([Atom(Str(s)), Pair("c", Int(1)), Pair("e", Int(2))], 1);
    UnpackAllStops([Atom(v), Pair("c", Int(1)), Pair("e", Int(2))], 1);
  }

  /** The UPDATE branch of `build_query` that builds the SET text and values. */
  method SetClause(targets: seq<Item>) returns (r: Result<(string, seq<Value>), Error>)
    ensures r == SetPart(targets)
  {
    if |targets| > 2 {
      var setText := "";
      var setValues: seq<Value> := [];
      var pairs: seq<(string, Value)> := [];
      for j := 0 to |targets|
        invariant UnpackAll(targets[..j]) == Ok(pairs)
        invariant setText == Suffixed(Assignments(pairs), ", ")
        invariant setValues == PairValues(pairs)
      {
        assert targets[..j + 1][..j] == targets[..j];
        var u := Unpack(targets[j]);
        if u.Err? {
          UnpackAllStops(targets, j + 1);
          return Err(u.error);
        }
        var assignment := u.value.0 + " = ?";
        assert Assignments(pairs + [u.value]) == Assignments(pairs) + [assignment];
        assert PairValues(pairs + [u.value]) == PairValues(pairs) + [u.value.1];
        SuffixedAppend(Assignments(pairs), assignment, ", ");
        setText := setText + assignment + ", ";
        setValues := setValues + [u.value.1];
        pairs := pairs + [u.value];
      }
      assert targets[..|targets|] == targets;
      SuffixedJoin(Assignments(pairs), ", ");
      r := Ok((DropLastTwo(setText), setValues));
    } else {
      if |targets| == 0 {
        return Err(IndexError);
      }
      if !IsColumnName(targets[0]) {
        return Err(TypeError);
      }
      var setText := targets[0].v.s + " = ?";
      if |targets| == 1 {
        return Err(IndexError);
      }
      if targets[1].Pair? {
        return Err(TypeError);
      }
      r := Ok((setText, [targets[1].v]));
    }
  }

  /** `build_query`: the condition text and values, then the target text for the operation;
      an unknown operation raises `SQLException`. */
  method BuildQuery(table: string, opt: string, targets: seq<Item>, where: seq<Cond>)
    returns (r: Result<Statement, Error>)
    ensures r == Query(table, opt, targets, where)
  {
    var condition, values := WhereClause(where);
    if opt == "SELECT" {
      if !AllColumnNames(targets) {
        return Err(TypeError);
      }
      var names := ColumnNames(targets);
      SuffixedJoin(names, ", ");
      var columns := DropLastTwo(Suffixed(names, ", "));
      if condition != "" {
        r := Ok(Statement("SELECT " + columns + " FROM " + table + " WHERE " + condition, values));
      } else {
        r := Ok(Statement("SELECT " + columns + " FROM " + table, values));
      }
    } else if opt == "DELETE" {
      r := Ok(Statement("DELETE FROM " + table + " WHERE " + condition, values));
    } else if opt == "UPDATE" {
      var set_ := SetClause(targets);
      if set_.Err? {
        return Err(set_.error);
      }
      var (setText, setValues) := set_.value;
      r := Ok(Statement("UPDATE " + table + " SET " + setText + " WHERE " + condition, setValues + values));
    } else {
      r := Err(SQLException);
    }
  }

  lemma {:induction false} WhereTextEmpty(w: seq<Cond>)
    ensures WhereText(w) == "" <==> w == []
  {
    if w != [] {
      assert |CondText(w[|w| - 1])| > 0;
    }
  }

  /** A SELECT carries a WHERE clause exactly when there are conditions; a DELETE always does. */
  lemma WhereClausePresence(table: string, targets: seq<Item>, where: seq<Cond>)
    requires AllColumnNames(targets)
    ensures var head := "SELECT " + Join(ColumnNames(targets), ", ") + " FROM " + table;
      Query(table, "SELECT", targets, where).value.sql
        == if where == [] then head else head + " WHERE " + WhereText(where)
    ensures Query(table, "DELETE", targets, where).value.sql == "DELETE FROM " + table + " WHERE " + WhereText(where)
  {
    assert "DELETE"[0] != "SELECT"[0];
    WhereTextEmpty(where);
  }

  /** One SET value per target for a longer tuple, a single one otherwise. */
  lemma SetValueCount(targets: seq<Item>)
    requires SetPart(targets).Ok?
    ensures |SetPart(targets).value.1| == if |targets| > 2 then |targets| else 1
  {
    if |targets| > 2 {
      UnpackAllFacts(targets);
    }
  }

  /** In an UPDATE the values of the SET part precede those of the WHERE list. */
  lemma UpdateValueOrder(table: string, targets: seq<Item>, where: seq<Cond>)
    requires Query(table, "UPDATE", targets, where).Ok?
    ensures var vs := Query(table, "UPDATE", targets, where).value.values;
      vs[|vs| - |WhereValues(where)|..] == WhereValues(where)
      && |vs| - |WhereValues(where)| == (if |targets| > 2 then |targets| else 1)
  {
    assert "UPDATE"[0] != "SELECT"[0] && "UPDATE"[0] != "DELETE"[0];
    var vs := Query(table, "UPDATE", targets, where).value.values;
    var set_ := SetPart(targets).value.1;
    assert vs == set_ + WhereValues(where);
    SetValueCount(targets);
  }

  predicate NoMark(s: string) { '?' !in s }

  predicate CondUnmarked(c: Cond)
  {
    match c
    case Triple(column, op, _) => NoMark(column) && NoMark(op)
    case Connector(text) => NoMark(text)
  }

  predicate ItemUnmarked(t: Item)
  {
    match t
    case Atom(v) => !v.Str? || NoMark(v.s)
    case Pair(column, _) => NoMark(column)
  }
  /** A target whose text holds no `?` unpacks into a column name holding none either. */
  lemma UnpackUnmarked(t: Item)
    requires ItemUnmarked(t) && Unpack(t).Ok?
    ensures NoMark(Unpack(t).value.0)
  {
    if t.Atom? {
      assert forall c :: c in t.v.s[..1] ==> c in t.v.s;
    }
  }


  lemma {:induction false} WherePlaceholders(w: seq<Cond>)
    requires forall i :: 0 <= i < |w| ==> CondUnmarked(w[i])
    ensures CountChar('?', WhereText(w)) == |WhereValues(w)|
    decreases |w|
  {
    if w != [] {
      var init := w[..|w| - 1];
      var c := w[|w| - 1];
      assert forall i :: 0 <= i < |init| ==> init[i] == w[i];
      WherePlaceholders(init);
      CountCharAppend('?', WhereText(init), CondText(c));
      match c
      case Triple(column, op, _) =>
        CountCharAppend('?', column + " " + op, " ? ");
        CountCharAbsent('?', column + " " + op);
      case Connector(text) =>
        CountCharAbsent('?', text + " ");
    }
  }

  lemma SetPlaceholders(targets: seq<Item>)
    requires forall i :: 0 <= i < |targets| ==> ItemUnmarked(targets[i])
    requires SetPart(targets).Ok?
    ensures CountChar('?', SetPart(targets).value.0) == |SetPart(targets).value.1|
  {
    if |targets| > 2 {
      var ps := UnpackAll(targets).value;
      UnpackAllFacts(targets);
      var assignments := Assignments(ps);
      forall i | 0 <= i < |assignments| ensures CountChar('?', assignments[i]) == 1 {
        UnpackUnmarked(targets[i]);
        CountCharAppend('?', ps[i].0, " = ?");
        CountCharAbsent('?', ps[i].0);
      }
      JoinCount('?', assignments, ", ");
    } else {
      assert ItemUnmarked(targets[0]);
      CountCharAppend('?', targets[0].v.s, " = ?");
      CountCharAbsent('?', targets[0].v.s);
    }
  }

  lemma SelectPlaceholders(table: string, targets: seq<Item>, where: seq<Cond>)
    requires NoMark(table) && AllColumnNames(targets)
    requires forall i :: 0 <= i < |targets| ==> ItemUnmarked(targets[i])
    requires forall i :: 0 <= i < |where| ==> CondUnmarked(where[i])
    ensures CountChar('?', SelectQuery(table, targets, where).value.sql) == |WhereValues(where)|
  {
    var wt := WhereText(where);
    WherePlaceholders(where);
    var names := ColumnNames(targets);
    forall i | 0 <= i < |names| ensures '?' !in names[i] {
      assert ItemUnmarked(targets[i]);
    }
    JoinAbsent('?', names, ", ");
    var head := "SELECT " + Join(names, ", ") + " FROM " + table;
    CountCharAbsent('?', head);
    CountCharAbsent('?', head + " WHERE ");
    CountCharAppend('?', head + " WHERE ", wt);
  }

  lemma DeletePlaceholders(table: string, where: seq<Cond>)
    requires NoMark(table)
    requires forall i :: 0 <= i < |where| ==> CondUnmarked(where[i])
    ensures CountChar('?', "DELETE FROM " + table + " WHERE " + WhereText(where)) == |WhereValues(where)|
  {
    WherePlaceholders(where);
    var head := "DELETE FROM " + table + " WHERE ";
    CountCharAbsent('?', head);
    CountCharAppend('?', head, WhereText(where));
  }

  lemma UpdatePlaceholders(table: string, targets: seq<Item>, where: seq<Cond>)
    requires NoMark(table) && SetPart(targets).Ok?
    requires forall i :: 0 <= i < |targets| ==> ItemUnmarked(targets[i])
    requires forall i :: 0 <= i < |where| ==> CondUnmarked(where[i])
    ensures var (text, values) := SetPart(targets).value;
      CountChar('?', "UPDATE " + table + " SET " + text + " WHERE " + WhereText(where))
        == |values + WhereValues(where)|
  {
    var wt := WhereText(where);
    WherePlaceholders(where);
    var (text, values) := SetPart(targets).value;
    SetPlaceholders(targets);
    var head := "UPDATE " + table + " SET ";
    CountCharAbsent('?', head);
    CountCharAbsent('?', " WHERE ");
    CountCharAppend('?', head, text);
    CountCharAppend('?', head + text, " WHERE ");
    CountCharAppend('?', head + text + " WHERE ", wt);
  }

  /** Exactly one `?` per bound value, whatever the operation, as long as the names and
      connectors themselves hold no `?`. */
  lemma QueryPlaceholders(table: string, opt: string, targets: seq<Item>, where: seq<Cond>)
    requires NoMark(table)
    requires forall i :: 0 <= i < |targets| ==> ItemUnmarked(targets[i])
    requires forall i :: 0 <= i < |where| ==> CondUnmarked(where[i])
    requires Query(table, opt, targets, where).Ok?
    ensures CountChar('?', Query(table, opt, targets, where).value.sql)
         == |Query(table, opt, targets, where).value.values|
  {
    if opt == "SELECT" {
      SelectPlaceholders(table, targets, where);
    } else if opt == "DELETE" {
      DeletePlaceholders(table, where);
    } else {
      UpdatePlaceholders(table, targets, where);
    }
  }

  // ------------------------------------------------------ sql_operation_handler

  /** How the cursor is driven: a built statement, a raw statement with data, or a bare one. */
  datatype Execution = Built(statement: Statement) | Raw(sql: string, data: seq<Value>) | Bare(sql: string)

  /** Python truthiness of the optional `sql` string. */
  predicate SqlGiven(sql: Option<string>) { sql.Some? && sql.value != "" }

  /** The three input shapes `sql_operation_handler` accepts. */
  predicate Accepted(conditions: Option<Conditions>, sql: Option<string>, data: Option<seq<Value>>)
  {
    || (conditions.Some? && !SqlGiven(sql) && data.None?)
    || (conditions.None? && SqlGiven(sql) && data.Some? && data.value != [])
    || (conditions.None? && SqlGiven(sql) && data.None?)
  }

  /** `sql_operation_handler`: conditions alone are built into a statement; a statement with
      non-empty data or with no data at all is run as given; anything else raises. */
  method Dispatch(table: string, opt: string, conditions: Option<Conditions>, sql: Option<string>,
                  data: Option<seq<Value>>) returns (r: Result<Execution, Error>)
    ensures conditions.Some? && !SqlGiven(sql) && data.None? ==>
      r == match Query(table, opt, conditions.value.targets, conditions.value.where)
           case Ok(st) => Ok(Built(st))
           case Err(e) => Err(e)
    ensures conditions.None? && SqlGiven(sql) && data.Some? && data.value != [] ==>
      r == Ok(Raw(sql.value, data.value))
    ensures conditions.None? && SqlGiven(sql) && data.None? ==> r == Ok(Bare(sql.value))
    ensures r.Ok? ==> (conditions.Some? <==> r.value.Built?)
    ensures !Accepted(conditions, sql, data) ==> r == Err(SQLException)
  {
    if conditions.Some? && !SqlGiven(sql) && data.None? {
      var q := BuildQuery(table, opt, conditions.value.targets, conditions.value.where);
      if q.Ok? {
        r := Ok(Built(q.value));
      } else {
        r := Err(q.error);
      }
    } else if conditions.None? && SqlGiven(sql) && data.Some? && data.value != [] {
      r := Ok(Raw(sql.value, data.value));
    } else if conditions.None? && SqlGiven(sql) && data.None? {
      r := Ok(Bare(sql.value));
    } else {
      r := Err(SQLException);
    }
  }

  // -------------------------------------------------------------------- search

  /** What `search` returns: the bare value of a 1x1 result, the single row as a list, or
      the list of rows. */
  datatype Shaped = Scalar(v: Value) | Row(items: seq<Value>) | Rows(rows: seq<seq<Value>>)

  /** `search`'s shaping of the fetched rows. */
  function Shape(rows: seq<seq<Value>>, flat: bool): (r: Shaped)
    ensures r.Scalar? <==> |rows| == 1 && |rows[0]| == 1
    ensures r.Row? <==> |rows| == 1 && |rows[0]| != 1 && flat
    ensures r.Rows? ==> r.rows == rows
  {
    if |rows| == 1 && |rows[0]| == 1 then Scalar(rows[0][0])
    else if |rows| == 1 && flat then Row(rows[0])
    else Rows(rows)
  }

  /** The rows a shaped result stands for. */
  function Unshape(r: Shaped): seq<seq<Value>>
  {
    match r
    case Scalar(v) => [[v]]
    case Row(items) => [items]
    case Rows(rows) => rows
  }

  /** Shaping loses nothing: the fetched rows can be read back from every shape. */
  lemma ShapeRoundTrip(rows: seq<seq<Value>>, flat: bool)
    ensures Unshape(Shape(rows, flat)) == rows
  {
    if |rows| == 1 && |rows[0]| == 1 {
      assert rows[0] == [rows[0][0]];
    }
  }

  /** Python `==` between two column values (an integer equals the same real). */
  predicate PyEq(a: Value, b: Value)
  {
    match (a, b)
    case (Int(i), Float(x)) => i as real == x
    case (Float(x), Int(i)) => i as real == x
    case _ => a == b
  }

  /** Python `x in result`: a substring test on a string scalar, a type error on any other
      scalar, membership in a single row, and never true of a list of tuples. */
  function Contains(x: Value, r: Shaped): Result<bool, Error>
  {
    match r
    case Scalar(v) => if v.Str? && x.Str? then Ok(IsSubstring(x.s, v.s)) else Err(TypeError)
    case Row(items) => Ok(exists i :: 0 <= i < |items| && PyEq(x, items[i]))
    case Rows(_) => Ok(false)
  }

  /** `len(result)`. */
  function Len(r: Shaped): Result<nat, Error>
  {
    match r
    case Scalar(v) => if v.Str? then Ok(|v.s|) else Err(TypeError)
    case Row(items) => Ok(|items|)
    case Rows(rows) => Ok(|rows|)
  }

  /** What a search of column `c` for value `v` returns when `k` rows hold it. */
  function LookupResult(v: string, k: nat): Shaped
  {
    Shape(seq(k, _ => [Str(v)]), true)
  }

  /** `v in search(((c,), [(c, '=', v)]))` holds exactly when one row holds the value: two or
      more matching rows come back as a list of tuples, which never contains a string. */
  lemma {:induction false} LookupContains(v: string, k: nat)
    ensures Contains(Str(v), LookupResult(v, k)) == Ok(k == 1)
  {
    if k == 1 {
      SubstringOfItself(v);
    }
  }

  /** `is_empty`: the length of `SELECT *` over the table. */
  function IsEmpty(rows: seq<seq<Value>>): Result<bool, Error>
  {
    match Len(Shape(rows, true))
    case Ok(n) => Ok(n == 0)
    case Err(e) => Err(e)
  }

  /** A table with at least two columns is empty exactly when it has no rows. */
  lemma IsEmptyWide(rows: seq<seq<Value>>)
    requires forall i :: 0 <= i < |rows| ==> |rows[i]| >= 2
    ensures IsEmpty(rows) == Ok(|rows| == 0)
  {
    if |rows| == 1 {
      assert |rows[0]| >= 2;
    }
  }

  /** A one-column table whose single row holds `''` reads as empty, and one whose single row
      holds a number makes `is_empty` raise. */
  lemma IsEmptySingleCell()
    ensures IsEmpty([[Str("")]]) == Ok(true)
    ensures IsEmpty([[Int(0)]]) == Err(TypeError)
  {
  }

  // -------------------------------------------------------------------- insert

  /** The statement `insert` builds from the column list, or `None` when the table is missing. */
  function InsertStatement(exists_: bool, table: string, columns: seq<string>): Option<string>
  {
    if !exists_ then None
    else Some("INSERT INTO " + table + "(" + Join(columns, ", ") + ") VALUES("
              + DropLastTwo(Repeat("?, ", |columns|)) + ")")
  }

  /** The placeholder list is `n` question marks joined by `, `. */
  lemma {:induction false} PlaceholderList(n: nat)
    ensures DropLastTwo(Repeat("?, ", n)) == Join(seq(n, _ => "?"), ", ")
  {
    assert "?, " == "?" + ", ";
    RepeatSuffixed("?", n);
    SuffixedJoin(seq(n, _ => "?"), ", ");
  }

  /** One `?` per column, and nothing at all when the table is missing. */
  lemma InsertPlaceholders(exists_: bool, table: string, columns: seq<string>)
    requires NoMark(table)
    requires forall i :: 0 <= i < |columns| ==> NoMark(columns[i])
    ensures InsertStatement(exists_, table, columns).None? <==> !exists_
    ensures exists_ ==> CountChar('?', InsertStatement(exists_, table, columns).value) == |columns|
  {
    if exists_ {
      var n := |columns|;
      var marks := seq(n, _ => "?");
      assert CountChar('?', Join(marks, ", ")) == n by {
        forall i | 0 <= i < n ensures CountChar('?', marks[i]) == 1 { }
        JoinCount('?', marks, ", ");
      }
      var head := "INSERT INTO " + table + "(" + Join(columns, ", ") + ") VALUES(";
      assert CountChar('?', head) == 0 by {
        JoinAbsent('?', columns, ", ");
        CountCharAbsent('?', head);
      }
      PlaceholderList(n);
      CountCharAppend('?', head, Join(marks, ", "));
      CountCharAppend('?', head + Join(marks, ", "), ")");
    }
  }

  // --------------------------------------------------------------------- alter

  /** The `parameters` of `alter`: one name, or an `(old, new)` pair. */
  datatype AlterArgs = One(name: string) | Two(first: string, second: string)

  /** `alter`: the ALTER TABLE statement it runs (`None` when the table is missing, checked
      before the action), or the exception it raises. */
  function Alter(exists_: bool, table: string, columns: seq<string>, action: string, args: AlterArgs)
    : (r: Result<Option<string>, Error>)
    ensures !exists_ ==> r == Ok(None)
    ensures exists_ && action == "add_column" && args.One? && args.name in columns ==>
      r == Err(ColumnNameAlreadyExist(table, args.name))
    ensures exists_ && action != "rename" && action != "add_column" && action != "rename_column" ==>
      r == Err(AlterActionNotExist(action))
    ensures r.Ok? && r.value.Some? ==> "ALTER TABLE " + table <= r.value.value
    ensures r.Ok? && r.value.Some? && action == "add_column" ==> args.One? && args.name !in columns
  {
    if !exists_ then Ok(None)
    else
      var sql := "ALTER TABLE " + table;
      if action == "rename" then
        if args.One? then Ok(Some(sql + " RENAME TO " + args.name)) else Err(TypeError)
      else if action == "add_column" then
        if args.One? && args.name in columns then Err(ColumnNameAlreadyExist(table, args.name))
        else if args.One? then Ok(Some(sql + " ADD COLUMN " + args.name))
        else Err(TypeError)
      else if action == "rename_column" then
        match args
        case Two(a, b) => Ok(Some(sql + " RENAME COLUMN " + a + " TO " + b))
        case One(s) =>
          if |s| >= 2 then Ok(Some(sql + " RENAME COLUMN " + [s[0]] + " TO " + [s[1]]))
          else Err(IndexError)
      else Err(AlterActionNotExist(action))
  }

  // ------------------------------------------------------------ select_columns

  /** A row of `PRAGMA table_info`. */
  datatype ColumnInfo = ColumnInfo(cid: int, name: string, declType: string, notNull: int,
                                   default: Option<string>, pk: int)

  /** Python `data_type in row` for a string `data_type`: it equals one of the row's strings. */
  predicate InRow(t: string, row: ColumnInfo)
  {
    t == row.name || t == row.declType || row.default == Some(t)
  }

  /** One name per (row, data type) match, rows outermost. */
  function Selected(rows: seq<ColumnInfo>, types: seq<string>): seq<string>
  {
    if rows == [] then [] else Selected(rows[..|rows| - 1], types) + Matches(rows[|rows| - 1], types)
  }

  function Matches(row: ColumnInfo, types: seq<string>): seq<string>
  {
    if types == [] then [] else Matches(row, types[..|types| - 1]) + (if InRow(types[|types| - 1], row) then [row.name] else [])
  }

  /** `select_columns` over the table-info rows; a missing table raises `TableNotExist`. */
  method SelectColumns(exists_: bool, table: string, rows: seq<ColumnInfo>, types: seq<string>)
    returns (r: Result<seq<string>, Error>)
    ensures !exists_ ==> r == Err(TableNotExist(table))
    ensures exists_ ==> r == Ok(Selected(rows, types))
  {
    if !exists_ {
      return Err(TableNotExist(table));
    }
    var columns: seq<string> := [];
    for i := 0 to |rows|
      invariant columns == Selected(rows[..i], types)
    {
      assert rows[..i + 1][..i] == rows[..i];
      for j := 0 to |types|
        invariant columns == Selected(rows[..i], types) + Matches(rows[i], types[..j])
      {
        assert types[..j + 1][..j] == types[..j];
        if types[j] in [rows[i].name, rows[i].declType] || rows[i].default == Some(types[j]) {
          columns := columns + [rows[i].name];
        }
      }
      assert types[..|types|] == types;
    }
    assert rows[..|rows|] == rows;
    r := Ok(columns);
  }

  lemma {:induction false} MatchesMembership(row: ColumnInfo, types: seq<string>, c: string)
    ensures c in Matches(row, types) <==> c == row.name && exists t :: t in types && InRow(t, row)
    decreases |types|
  {
    if types != [] {
      var init := types[..|types| - 1];
      MatchesMembership(row, init, c);
      if c == row.name && exists t :: t in types && InRow(t, row) {
        var t :| t in types && InRow(t, row);
        InPrefixOrLast(types, t);
      }
      forall t | t in init ensures t in types {
        InPrefixOrLast(types, t);
      }
    }
  }

  /** A name is selected exactly when its row matches one of the requested data types. */
  lemma {:induction false} SelectedMembership(rows: seq<ColumnInfo>, types: seq<string>, c: string)
    ensures c in Selected(rows, types) <==>
      exists row :: row in rows && row.name == c && exists t :: t in types && InRow(t, row)
    decreases |rows|
  {
    if rows != [] {
      var init := rows[..|rows| - 1];
      var last := rows[|rows| - 1];
      SelectedMembership(init, types, c);
      MatchesMembership(last, types, c);
      if exists row :: row in rows && row.name == c && exists t :: t in types && InRow(t, row) {
        var row :| row in rows && row.name == c && exists t :: t in types && InRow(t, row);
        InPrefixOrLast(rows, row);
      }
      forall row | row in init ensures row in rows {
        InPrefixOrLast(rows, row);
      }
    }
  }

  /** `column_not_exist`: the column list is `None` for a missing table, and `in None` raises. */
  function ColumnNotExist(columns: Option<seq<string>>, column: string): (r: Result<bool, Error>)
    ensures r.Ok? <==> columns.Some?
    ensures r.Ok? ==> (r.value <==> forall i :: 0 <= i < |columns.value| ==> columns.value[i] != column)
  {
    if columns.None? then Err(TypeError) else Ok(column !in columns.value)
  }
}
