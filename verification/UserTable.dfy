/** The USERS table: `user_id` is the key, `username` and `email` are UNIQUE. Ids are
    allocated as one more than the largest numeric id, and a default admin is created when
    id `'0'` is missing. */
module UserTable {
  import opened Wrappers
  import opened Text
  import opened Errors
  import opened SqlHandler
  import opened Table

  /** A USERS row without its key. */
  datatype User = User(username: string, password: string, email: string, nationality: string)

  const Columns: seq<string> := ["user_id", "username", "password", "email", "nationality"]

  /** The value of `column` in the row with key `id`. */
  function Field(id: string, u: User, column: string): string
  {
    if column == "user_id" then id
    else if column == "username" then u.username
    else if column == "password" then u.password
    else if column == "email" then u.email
    else if column == "nationality" then u.nationality
    else ""
  }

  /** The UNIQUE constraints of the USERS schema. */
  predicate UniqueColumns(rows: map<string, User>)
  {
    forall a, b :: a in rows && b in rows && a != b ==>
      rows[a].username != rows[b].username && rows[a].email != rows[b].email
  }

  predicate IsUniqueColumn(column: string)
  {
    column == "user_id" || column == "username" || column == "email"
  }

  /** The ids of the rows `WHERE column = value` selects. */
  function Holders(rows: map<string, User>, column: string, value: string): set<string>
  {
    set id | id in rows && Field(id, rows[id], column) == value
  }

  /** In a UNIQUE column at most one row holds a value. */
  lemma UniqueHolders(rows: map<string, User>, column: string, value: string)
    requires UniqueColumns(rows) && IsUniqueColumn(column)
    ensures |Holders(rows, column, value)| == if exists id :: id in rows && Field(id, rows[id], column) == value then 1 else 0
  {
    var h := Holders(rows, column, value);
    if exists id :: id in rows && Field(id, rows[id], column) == value {
      var a :| a in rows && Field(a, rows[a], column) == value;
      assert h == {a};
    } else {
      assert h == {};
    }
  }

  /** Inserting a user whose username and email nobody holds keeps the constraints. */
  lemma InsertKeepsUnique(rows: map<string, User>, id: string, u: User)
    requires UniqueColumns(rows) && id !in rows
    requires |Holders(rows, "username", u.username)| != 1 && |Holders(rows, "email", u.email)| != 1
    ensures UniqueColumns(rows[id := u])
  {
    UniqueHolders(rows, "username", u.username);
    UniqueHolders(rows, "email", u.email);
    assert forall b :: b in rows ==> rows[b].username != u.username && rows[b].email != u.email by {
      forall b | b in rows ensures rows[b].username != u.username && rows[b].email != u.email {
        assert Field(b, rows[b], "username") == rows[b].username;
        assert Field(b, rows[b], "email") == rows[b].email;
      }
    }
  }

  /** `str(None)`: a missing nationality is stored as the text `'None'`. */
  function StoredText(x: Option<string>): string
  {
    if x.None? then "None" else x.value
  }

  function Default(x: Option<string>, d: string): string
  {
    if x.None? then d else x.value
  }

  /** The table after `UPDATE USERS SET column = value WHERE user_id = id`; SQLite rejects
      a duplicate key, username or email, and the handler swallows the error. */
  function Assign(rows: map<string, User>, id: string, column: string, value: string): map<string, User>
    requires id in rows
  {
    var u := rows[id];
    if column == "user_id" then
      if value in rows then rows else (rows - {id})[value := u]
    else if column == "username" then
      if exists b :: b in rows && b != id && rows[b].username == value then rows else rows[id := u.(username := value)]
    else if column == "email" then
      if exists b :: b in rows && b != id && rows[b].email == value then rows else rows[id := u.(email := value)]
    else if column == "password" then rows[id := u.(password := value)]
    else if column == "nationality" then rows[id := u.(nationality := value)]
    else rows
  }

  /** Moving a row to a free key keeps the constraints. */
  lemma RekeyKeepsUnique(rows: map<string, User>, id: string, value: string)
    requires id in rows && value !in rows && UniqueColumns(rows)
    ensures UniqueColumns((rows - {id})[value := rows[id]])
  {
    var r := (rows - {id})[value := rows[id]];
    forall a, b | a in r && b in r && a != b
      ensures r[a].username != r[b].username && r[a].email != r[b].email
    {
      var a' := if a == value then id else a;
      var b' := if b == value then id else b;
      assert r[a] == rows[a'] && r[b] == rows[b'];
    }
  }

  /** Rewriting a row whose new username and email no other row holds keeps the constraints. */
  lemma RewriteKeepsUnique(rows: map<string, User>, id: string, u: User)
    requires id in rows && UniqueColumns(rows)
    requires forall b :: b in rows && b != id ==> rows[b].username != u.username && rows[b].email != u.email
    ensures UniqueColumns(rows[id := u])
  {
    var r := rows[id := u];
    forall a, b | a in r && b in r && a != b
      ensures r[a].username != r[b].username && r[a].email != r[b].email
    {
      if a == id {
        assert r[b] == rows[b];
      } else if b == id {
        assert r[a] == rows[a];
      } else {
        assert r[a] == rows[a] && r[b] == rows[b];
      }
    }
  }

  /** An update never breaks the UNIQUE constraints. */
  lemma AssignKeepsUnique(rows: map<string, User>, id: string, column: string, value: string)
    requires id in rows && UniqueColumns(rows)
    ensures UniqueColumns(Assign(rows, id, column, value))
  {
    var u := rows[id];
    if column == "user_id" {
      if value !in rows {
        RekeyKeepsUnique(rows, id, value);
      }
    } else if column == "username" {
      if !exists b :: b in rows && b != id && rows[b].username == value {
        RewriteKeepsUnique(rows, id, u.(username := value));
      }
    } else if column == "email" {
      if !exists b :: b in rows && b != id && rows[b].email == value {
        RewriteKeepsUnique(rows, id, u.(email := value));
      }
    } else if column == "password" {
      RewriteKeepsUnique(rows, id, u.(password := value));
    } else if column == "nationality" {
      RewriteKeepsUnique(rows, id, u.(nationality := value));
    }
  }

  /** An accepted update of a non-key column changes that column of that user and nothing else. */
  lemma AssignOnlyTouches(rows: map<string, User>, id: string, column: string, value: string)
    requires id in rows && column != "user_id"
    ensures var r := Assign(rows, id, column, value);
      r.Keys == rows.Keys
      && (forall b :: b in rows && b != id ==> r[b] == rows[b])
      && (forall c :: c in Columns && c != column ==> Field(id, r[id], c) == Field(id, rows[id], c))
      && (Field(id, r[id], column) == value || r == rows)
  {
  }

  class UserTable {
    var rows: map<string, User>

    predicate Valid()
      reads this
    {
      UniqueColumns(rows)
    }

    /** The table as `CREATE TABLE IF NOT EXISTS` finds it. */
    constructor(existing: map<string, User>)
      requires UniqueColumns(existing)
      ensures rows == existing && Valid()
    {
      rows := existing;
    }

    /** `column_value_already_used`: an unknown column counts as used; otherwise the value
        is used when `value in search(...)` holds, which is when exactly one row holds it. */
    function ColumnValueAlreadyUsed(column: string, value: string): (used: bool)
      reads this
      ensures column !in Columns ==> used
      ensures column in Columns ==> (used <==> |Holders(rows, column, value)| == 1)
    {
      if column !in Columns then true
      else
        var k := |Holders(rows, column, value)|;
        LookupContains(value, k);
        Contains(Str(value), LookupResult(value, k)) == Ok(true)
    }

    /** `check_column_value_validity`: the column is known and the user exists. */
    function CheckColumnValueValidity(id: string, column: string): (valid: bool)
      reads this
      ensures valid <==> column in Columns && id in rows
    {
      column in Columns && (
        var k := |Holders(rows, "user_id", id)|;
        assert Holders(rows, "user_id", id) == if id in rows then {id} else {};
        LookupItemNotExist(id, k);
        ItemNotExist(Str(id), LookupResult(id, k)) == Ok(false))
    }

    /** `add`: refused (None, nothing changes) when the username or the email is taken;
        otherwise the row is inserted under the next id, which is returned. */
    method Add(username: string, password: string, email: string, nationality: Option<string>)
      returns (r: Result<Option<string>, Error>)
      requires Valid()
      modifies this
      ensures Valid()
      ensures r.Ok? && r.value.None? ==> rows == old(rows)
      ensures r.Err? ==> r.error == ValueError && rows == old(rows) && exists s :: s in old(rows).Keys && ParseInt(s).None?
      ensures r.Ok? && r.value.Some? ==>
        IsNextId(old(rows).Keys, r.value.value)
        && rows == old(rows)[r.value.value := User(username, password, email, StoredText(nationality))]
      ensures r == Ok(None) <==> old(ColumnValueAlreadyUsed("username", username) || ColumnValueAlreadyUsed("email", email))
      ensures (forall s :: s in old(rows).Keys ==> ParseInt(s).Some?) ==> r.Ok?
      ensures old(rows) == map[] ==> r == Ok(Some("0"))
    {
      if rows == map[] {
        assert Holders(rows, "username", username) == {};
        assert Holders(rows, "email", email) == {};
      }
      if ColumnValueAlreadyUsed("username", username) {
        return Ok(None);
      }
      if ColumnValueAlreadyUsed("email", email) {
        return Ok(None);
      }
      var id := NextId(rows.Keys);
      if id.Err? {
        assert exists s :: s in rows.Keys && ParseInt(s).None?;
        return Err(id.error);
      }
      NextIdFresh(rows.Keys, id.value);
      var u := User(username, password, email, StoredText(nationality));
      InsertKeepsUnique(rows, id.value, u);
      rows := rows[id.value := u];
      r := Ok(Some(id.value));
    }

    /** `"0" in self.search(...)` as the constructor asks it: the lookup finds the id exactly
        when the user exists. */
    function HasUser(id: string): (present: bool)
      reads this
      ensures present <==> id in rows
    {
      var k := |Holders(rows, "user_id", id)|;
      assert Holders(rows, "user_id", id) == if id in rows then {id} else {};
      LookupContains(id, k);
      Contains(Str(id), LookupResult(id, k)) == Ok(true)
    }

    /** The admin bootstrap of the constructor: when id `'0'` is missing, add the given user
        or the default `admin` / `pwd` / `admin@gmail.com`. */
    method Bootstrap(username: Option<string>, password: Option<string>, email: Option<string>)
      returns (r: Result<Option<string>, Error>)
      requires Valid()
      modifies this
      ensures Valid()
      ensures "0" in old(rows) ==> r == Ok(None) && rows == old(rows)
      ensures r.Ok? && r.value.None? ==> rows == old(rows)
      ensures r.Ok? && r.value.Some? ==>
        "0" !in old(rows) && IsNextId(old(rows).Keys, r.value.value)
        && rows == old(rows)[r.value.value := User(Default(username, "admin"), Default(password, "pwd"),
                                                   Default(email, "admin@gmail.com"), "None")]
      ensures old(rows) == map[] ==> r == Ok(Some("0"))
    {
      if !HasUser("0") {
        r := Add(Default(username, "admin"), Default(password, "pwd"), Default(email, "admin@gmail.com"), None);
      } else {
        r := Ok(None);
      }
    }

    /** `update`: only a known column of an existing user is written. */
    method Update(id: string, column: string, value: string)
      requires Valid()
      modifies this
      ensures Valid()
      ensures !old(CheckColumnValueValidity(id, column)) ==> rows == old(rows)
      ensures old(CheckColumnValueValidity(id, column)) ==> rows == Assign(old(rows), id, column, value)
    {
      if CheckColumnValueValidity(id, column) {
        AssignKeepsUnique(rows, id, column, value);
        rows := Assign(rows, id, column, value);
      }
    }

    /** `remove`: the user's row goes if it is there; otherwise nothing changes (the
        not-exist warning is silenced by its default). */
    method Remove(id: string)
      requires Valid()
      modifies this
      ensures Valid()
      ensures rows == old(rows) - {id}
    {
      var k := |Holders(rows, "user_id", id)|;
      assert Holders(rows, "user_id", id) == if id in rows then {id} else {};
      LookupItemNotExist(id, k);
      if ItemNotExist(Str(id), LookupResult(id, k)) == Ok(false) {
        rows := rows - {id};
      }
    }
  }
}
