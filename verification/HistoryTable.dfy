/** The HISTORY table: one row per (user, song) pair listened, with the date of the first
    listen and the number of repetitions. The USERS and SONGS keys it checks against are
    passed in, and so is today's date. */
module HistoryTable {
  import opened Wrappers
  import opened Errors
  import opened SqlHandler
  import opened Table

  /** The (user_id, song_id) primary key. */
  type Key = (string, string)

  /** A HISTORY row without its key. */
  datatype Listen = Listen(lastDate: string, repetition: int)

  /** Every stored pair has been listened at least once. */
  predicate Listened(rows: map<Key, Listen>)
  {
    forall p :: p in rows ==> rows[p].repetition >= 1
  }

  /** The history rows of one user. */
  function RowsOf(rows: map<Key, Listen>, user: string): set<Key>
  {
    set p | p in rows && p.0 == user
  }

  /** `item_not_exist(HISTORY, 'user_id', user)` negated: the user has listened to something. */
  function UserHasHistory(rows: map<Key, Listen>, user: string): (b: bool)
    ensures b <==> exists p :: p in rows && p.0 == user
  {
    var k := |RowsOf(rows, user)|;
    LookupItemNotExist(user, k);
    assert k == 0 <==> !exists p :: p in rows && p.0 == user by {
      if exists p :: p in rows && p.0 == user {
        var p :| p in rows && p.0 == user;
        assert p in RowsOf(rows, user);
      } else {
        assert RowsOf(rows, user) == {};
      }
    }
    ItemNotExist(Str(user), LookupResult(user, k)) == Ok(false)
  }

  /** `song_not_listened_by_user`: `song not in search(song_id WHERE user AND song)`. */
  function SongNotListenedByUser(rows: map<Key, Listen>, user: string, song: string): (b: bool)
    ensures b <==> (user, song) !in rows
  {
    var k := if (user, song) in rows then 1 else 0;
    LookupContains(song, k);
    Contains(Str(song), LookupResult(song, k)) != Ok(true)
  }

  /** The table after one more listen of `song` by `user`: a known pair counts one more
      repetition and keeps its date; a new pair starts at one, dated today. */
  function AfterListen(rows: map<Key, Listen>, user: string, song: string, today: string): map<Key, Listen>
  {
    var p := (user, song);
    if p in rows then rows[p := rows[p].(repetition := rows[p].repetition + 1)]
    else rows[p := Listen(today, 1)]
  }

  /** A listen adds exactly one repetition to its pair, keeps every repetition positive and
      touches no other pair. */
  lemma AfterListenCounts(rows: map<Key, Listen>, user: string, song: string, today: string)
    requires Listened(rows)
    ensures var r := AfterListen(rows, user, song, today);
      var p := (user, song);
      Listened(r)
      && r.Keys == rows.Keys + {p}
      && r[p].repetition == (if p in rows then rows[p].repetition else 0) + 1
      && r[p].lastDate == (if p in rows then rows[p].lastDate else today)
      && forall q :: q in rows && q != p ==> r[q] == rows[q]
  {
  }

  class HistoryTable {
    var rows: map<Key, Listen>

    predicate Valid()
      reads this
    {
      Listened(rows)
    }

    /** The table as `CREATE TABLE IF NOT EXISTS` finds it. */
    constructor(existing: map<Key, Listen>)
      requires Listened(existing)
      ensures rows == existing && Valid()
    {
      rows := existing;
    }

    /** The first row the constructor inserts when both ids are given (non-empty) and
        exist; inserting a pair that is already stored breaks the primary key. */
    method Seed(users: set<string>, songs: set<string>, user: Option<string>, song: Option<string>, today: string)
      returns (r: Result<(), Error>)
      requires Valid()
      modifies this
      ensures Valid()
      ensures r.Err? ==> r.error == IntegrityError && rows == old(rows)
      ensures var seeded := user.Some? && user.value != "" && song.Some? && song.value != ""
                            && UserAndSongExist(users, songs, user.value, song.value);
        (seeded && (user.value, song.value) in old(rows) <==> r.Err?)
        && (!seeded ==> rows == old(rows))
        && (r.Ok? && seeded ==> rows == old(rows)[(user.value, song.value) := Listen(today, 1)])
    {
      if user.Some? && user.value != "" && song.Some? && song.value != ""
         && UserAndSongExist(users, songs, user.value, song.value) {
        if (user.value, song.value) in rows {
          return Err(IntegrityError);
        }
        rows := rows[(user.value, song.value) := Listen(today, 1)];
      }
      r := Ok(());
    }

    /** `add`: a listen of a known user and song. A pair already listened goes through
        `update`, whose result (nothing) is returned; a new pair is inserted with one
        repetition and 1 is returned. */
    method Add(users: set<string>, songs: set<string>, user: string, song: string, today: string)
      returns (r: Option<int>)
      requires Valid()
      modifies this
      ensures Valid()
      ensures UserAndSongExist(users, songs, user, song) ==> rows == AfterListen(old(rows), user, song, today)
      ensures !UserAndSongExist(users, songs, user, song) ==> rows == old(rows)
      ensures r == if UserAndSongExist(users, songs, user, song) && (user, song) !in old(rows) then Some(1) else None
      decreases if (user, song) in rows then 2 else 0
    {
      if UserAndSongExist(users, songs, user, song) {
        if !SongNotListenedByUser(rows, user, song) {
          Update(users, songs, user, song, today);
          r := None;
        } else {
          rows := rows[(user, song) := Listen(today, 1)];
          r := Some(1);
        }
      } else {
        r := None;
      }
    }

    /** `update`: a pair already listened counts one more repetition (the ids are not checked
        again); any other pair is passed to `add`. */
    method Update(users: set<string>, songs: set<string>, user: string, song: string, today: string)
      requires Valid()
      modifies this
      ensures Valid()
      ensures (user, song) in old(rows) ==> rows == AfterListen(old(rows), user, song, today)
      ensures (user, song) !in old(rows) ==>
        rows == if UserAndSongExist(users, songs, user, song) then AfterListen(old(rows), user, song, today) else old(rows)
      decreases 1
    {
      if UserHasHistory(rows, user) && !SongNotListenedByUser(rows, user, song) {
        var repetition := rows[(user, song)].repetition + 1;
        rows := rows[(user, song) := rows[(user, song)].(repetition := repetition)];
      } else if SongNotListenedByUser(rows, user, song) {
        var _ := Add(users, songs, user, song, today);
      } else {
        assert false;
      }
    }

    /** `remove`: the history is only changed through the USERS and SONGS tables. */
    method Remove(id: string)
      requires Valid()
      modifies this
      ensures Valid()
      ensures rows == old(rows)
    {
    }

    /** `add_new_user_with_song`: for known ids, a user without history gets the pair inserted
        directly; a user with history goes through `add`. */
    method AddNewUserWithSong(users: set<string>, songs: set<string>, user: string, song: string, today: string)
      requires Valid()
      modifies this
      ensures Valid()
      ensures rows == if UserAndSongExist(users, songs, user, song) then AfterListen(old(rows), user, song, today) else old(rows)
    {
      if UserAndSongExist(users, songs, user, song) {
        if !UserHasHistory(rows, user) {
          rows := rows[(user, song) := Listen(today, 1)];
        } else {
          var _ := Add(users, songs, user, song, today);
        }
      }
    }
  }
}
