/** The RATINGS table: one rating per (user, song) pair. Ratings are checked against a lower
    and an upper bound (1 and 5 unless given). The USERS and SONGS keys it checks against
    are passed in. */
module RatingsTable {
  import opened Wrappers
  import opened Errors
  import opened SqlHandler
  import opened Table

  /** The (user_id, song_id) primary key. */
  type Key = (string, string)

  /** The bound test of `add` as written: a rating passes when it is at least the lower
      bound OR at most the upper bound. */
  predicate PassesBounds(rating: int, lower: int, upper: int)
  {
    rating >= lower || rating <= upper
  }

  /** With bounds that leave no gap between them, the test lets every rating through: only
      a rating strictly above the upper bound and strictly below the lower one is refused. */
  lemma BoundsAlwaysPass(rating: int, lower: int, upper: int)
    ensures PassesBounds(rating, lower, upper) <==> !(upper < rating < lower)
    ensures lower <= upper + 1 ==> PassesBounds(rating, lower, upper)
  {
  }

  /** What `search(ratings WHERE user AND song)` returns: the stored rating, or the empty
      list when the pair has none. */
  function RatingLookup(rows: map<Key, int>, user: string, song: string): Shaped
  {
    Shape(if (user, song) in rows then [[Int(rows[(user, song)])]] else [], true)
  }

  /** `rating_already_exist`: a non-empty list, or a stored rating other than 0. */
  function RatingAlreadyExist(rows: map<Key, int>, user: string, song: string): (b: bool)
    ensures b <==> (user, song) in rows && rows[(user, song)] != 0
  {
    match RatingLookup(rows, user, song)
    case Rows(list) => |list| != 0
    case Row(list) => |list| != 0
    case Scalar(v) => !PyEq(v, Int(0))
  }

  /** The pair is stored with rating 0: `rating_already_exist` says no, but the pair is there. */
  predicate StoredZero(rows: map<Key, int>, user: string, song: string)
  {
    (user, song) in rows && rows[(user, song)] == 0
  }

  class RatingsTable {
    var rows: map<Key, int>
    const lower: int
    const upper: int

    /** The table as `CREATE TABLE IF NOT EXISTS` finds it, with the rating bounds. */
    constructor(existing: map<Key, int>, lower: int, upper: int)
      ensures rows == existing && this.lower == lower && this.upper == upper
    {
      rows := existing;
      this.lower := lower;
      this.upper := upper;
    }

    /** `add`: for known ids and a rating that passes the bound test, an existing non-zero
        rating is overwritten through `update` and a missing one inserted; the stored rating
        is returned. A stored 0 is not seen as a rating, so the insert breaks the primary key. */
    method Add(users: set<string>, songs: set<string>, user: string, song: string, rating: int)
      returns (r: Result<Option<int>, Error>)
      modifies this
      ensures !UserAndSongExist(users, songs, user, song) || !PassesBounds(rating, lower, upper) ==>
        r == Ok(None) && rows == old(rows)
      ensures UserAndSongExist(users, songs, user, song) && PassesBounds(rating, lower, upper) ==>
        if old(StoredZero(rows, user, song)) then r == Err(IntegrityError) && rows == old(rows)
        else r == Ok(Some(rating)) && rows == old(rows)[(user, song) := rating]
      decreases if RatingAlreadyExist(rows, user, song) then 2 else 0
    {
      if UserAndSongExist(users, songs, user, song) {
        if PassesBounds(rating, lower, upper) {
          if RatingAlreadyExist(rows, user, song) {
            var _ := Update(users, songs, user, song, rating);
          } else {
            if (user, song) in rows {
              return Err(IntegrityError);
            }
            rows := rows[(user, song) := rating];
          }
          var stored := RatingLookup(rows, user, song);
          assert stored == Scalar(Int(rating));
          return Ok(Some(stored.v.i));
        }
      }
      r := Ok(None);
    }

    /** `update`: for known ids, a pair without a rating is left alone (the empty list is
        not 0), a non-zero rating is overwritten, and a stored 0 is passed to `add`, whose
        failing insert propagates. */
    method Update(users: set<string>, songs: set<string>, user: string, song: string, rating: int)
      returns (r: Result<(), Error>)
      modifies this
      ensures !UserAndSongExist(users, songs, user, song) || (user, song) !in old(rows) ==> rows == old(rows)
      ensures UserAndSongExist(users, songs, user, song) && old(RatingAlreadyExist(rows, user, song)) ==>
        rows == old(rows)[(user, song) := rating]
      ensures old(StoredZero(rows, user, song)) ==> rows == old(rows)
      ensures r.Err? <==> UserAndSongExist(users, songs, user, song) && old(StoredZero(rows, user, song))
                          && PassesBounds(rating, lower, upper)
      ensures r.Err? ==> r.error == IntegrityError
      decreases 1
    {
      if UserAndSongExist(users, songs, user, song) {
        var current := RatingLookup(rows, user, song);
        if current != Scalar(Int(0)) {
          if (user, song) in rows {
            rows := rows[(user, song) := rating];
          }
        } else {
          var added := Add(users, songs, user, song, rating);
          if added.Err? {
            return Err(added.error);
          }
        }
      }
      r := Ok(());
    }

    /** `remove`: the rating of known ids is deleted. */
    method Remove(users: set<string>, songs: set<string>, user: string, song: string)
      modifies this
      ensures rows == if UserAndSongExist(users, songs, user, song) then old(rows) - {(user, song)} else old(rows)
    {
      if UserAndSongExist(users, songs, user, song) {
        rows := rows - {(user, song)};
      }
    }
  }
}
