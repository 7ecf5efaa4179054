/** The cold-start recommender: songs close to the last song listened, in the song feature
    space. The nearest-neighbour search is a parameter (distances and row positions, nearest
    first); a song's feature vector is represented by its id. */
module CoolStartRS {
  import opened Wrappers
  import opened OrderedDict
  import opened RSWeighter

  /** A neighbour: its cosine distance and its row position. */
  type Neighbour = (real, int)

  /** The SONGS lookup `WHERE ROWID = idx` finds a song with a non-empty id (`len` of the
      result is not 0). */
  predicate Hit(rowids: map<int, string>, idx: int)
  {
    idx in rowids && rowids[idx] != ""
  }

  /** The song id the lookup of `idx` finds (empty when there is none). */
  function SongAt(rowids: map<int, string>, idx: int): string
  {
    if idx in rowids then rowids[idx] else ""
  }

  /** Position `idx` leads to a song the user has not listened to. */
  predicate Fresh(history: set<(string, string)>, rowids: map<int, string>, user: string, idx: int)
  {
    Hit(rowids, idx) && (user, SongAt(rowids, idx)) !in history
  }

  /** Neighbour `j` leads to a song the user has not listened to. */
  predicate Novel(history: set<(string, string)>, rowids: map<int, string>, user: string, nb: seq<Neighbour>, j: nat)
    requires j < |nb|
  {
    Fresh(history, rowids, user, nb[j].1)
  }

  /** How many of the first `i` neighbours lead to a song. */
  function HitCount(rowids: map<int, string>, nb: seq<Neighbour>, i: nat): nat
    requires i <= |nb|
  {
    if i == 0 then 0 else HitCount(rowids, nb, i - 1) + (if Hit(rowids, nb[i - 1].1) then 1 else 0)
  }

  /** How many of the first `i` neighbours lead to an unheard song. */
  function NovelCount(history: set<(string, string)>, rowids: map<int, string>, user: string, nb: seq<Neighbour>, i: nat): nat
    requires i <= |nb|
  {
    if i == 0 then 0 else NovelCount(history, rowids, user, nb, i - 1) + (if Novel(history, rowids, user, nb, i - 1) then 1 else 0)
  }

  /** The listened songs the first `i` neighbours lead to, in order. */
  function Heard(history: set<(string, string)>, rowids: map<int, string>, user: string, nb: seq<Neighbour>, i: nat): seq<string>
    requires i <= |nb|
  {
    if i == 0 then []
    else
      Heard(history, rowids, user, nb, i - 1)
      + (if Hit(rowids, nb[i - 1].1) && !Novel(history, rowids, user, nb, i - 1) then [rowids[nb[i - 1].1]] else [])
  }

  /** The unheard songs the first `i` neighbours lead to, each assigned its similarity
      `1 - distance` in turn. */
  function Scored(history: set<(string, string)>, rowids: map<int, string>, user: string, nb: seq<Neighbour>, i: nat): Dict
    requires i <= |nb|
  {
    if i == 0 then []
    else PutIf(Scored(history, rowids, user, nb, i - 1), Fresh(history, rowids, user, nb[i - 1].1), SongAt(rowids, nb[i - 1].1), 1.0 - nb[i - 1].0)
  }

  /** Every anchor is a song the user has listened to. */
  lemma {:induction false} HeardListened(history: set<(string, string)>, rowids: map<int, string>, user: string, nb: seq<Neighbour>, i: nat)
    requires i <= |nb|
    ensures forall k :: 0 <= k < |Heard(history, rowids, user, nb, i)| ==> (user, Heard(history, rowids, user, nb, i)[k]) in history
  {
    if i > 0 {
      HeardListened(history, rowids, user, nb, i - 1);
    }
  }

  /** Every scored song is unheard, and there are no more of them than unheard hits. */
  lemma ScoredKeys(history: set<(string, string)>, rowids: map<int, string>, user: string, nb: seq<Neighbour>, i: nat)
    requires i <= |nb|
    ensures |Scored(history, rowids, user, nb, i)| <= NovelCount(history, rowids, user, nb, i)
    ensures forall k :: k in Keys(Scored(history, rowids, user, nb, i)) ==> (user, k) !in history
  {
    ScoredSize(history, rowids, user, nb, i);
    forall k | k in Keys(Scored(history, rowids, user, nb, i)) ensures (user, k) !in history {
      ScoredUnheard(history, rowids, user, nb, i, k);
    }
  }

  /** One more neighbour assigns its song when the song is a fresh hit. */
  lemma ScoredStep(history: set<(string, string)>, rowids: map<int, string>, user: string, nb: seq<Neighbour>, i: nat)
    requires 0 < i <= |nb|
    ensures Scored(history, rowids, user, nb, i)
         == PutIf(Scored(history, rowids, user, nb, i - 1), Fresh(history, rowids, user, nb[i - 1].1), SongAt(rowids, nb[i - 1].1), 1.0 - nb[i - 1].0)
  {
  }

  /** Scoring adds at most one song per unheard hit. */
  lemma {:induction false} ScoredSize(history: set<(string, string)>, rowids: map<int, string>, user: string, nb: seq<Neighbour>, i: nat)
    requires i <= |nb|
    ensures |Scored(history, rowids, user, nb, i)| <= NovelCount(history, rowids, user, nb, i)
  {
    if i > 0 {
      ScoredSize(history, rowids, user, nb, i - 1);
      ScoredStep(history, rowids, user, nb, i);
      var x := nb[i - 1];
      PutIfLength(Scored(history, rowids, user, nb, i), Scored(history, rowids, user, nb, i - 1), Fresh(history, rowids, user, x.1), SongAt(rowids, x.1), 1.0 - x.0);
    }
  }

  /** Only unheard songs are scored. */
  lemma {:induction false} ScoredUnheard(history: set<(string, string)>, rowids: map<int, string>, user: string, nb: seq<Neighbour>, i: nat, k: string)
    requires i <= |nb| && k in Keys(Scored(history, rowids, user, nb, i))
    ensures (user, k) !in history
  {
    ScoredStep(history, rowids, user, nb, i);
    // Both facts restated here so that the call below matches them directly.
    assert Scored(history, rowids, user, nb, i) == PutIf(Scored(history, rowids, user, nb, i - 1),
               Fresh(history, rowids, user, nb[i - 1].1), SongAt(rowids, nb[i - 1].1), 1.0 - nb[i - 1].0);
    assert k in Keys(Scored(history, rowids, user, nb, i));
    PutIfKeyIn(Scored(history, rowids, user, nb, i), Scored(history, rowids, user, nb, i - 1),
               Fresh(history, rowids, user, nb[i - 1].1), SongAt(rowids, nb[i - 1].1), 1.0 - nb[i - 1].0, k);
    if k in Keys(Scored(history, rowids, user, nb, i - 1)) {
      ScoredUnheard(history, rowids, user, nb, i - 1, k);
    }
  }

  /** How far the counter has got after the first `i` neighbours: every song found when
      collecting listened songs, only the unheard ones otherwise. */
  function Counted(history: set<(string, string)>, rowids: map<int, string>, user: string,
                   nb: seq<Neighbour>, i: nat, getListened: bool): nat
    requires i <= |nb|
  {
    if getListened then HitCount(rowids, nb, i) else NovelCount(history, rowids, user, nb, i)
  }

  /** The scan ends after `p` neighbours: the list is exhausted or the counter reached `n`,
      and it had not reached `n` before. */
  predicate StopsAt(history: set<(string, string)>, rowids: map<int, string>, user: string, n: int,
                    nb: seq<Neighbour>, getListened: bool, p: nat)
  {
    p <= |nb|
    && (p == |nb| || Counted(history, rowids, user, nb, p, getListened) >= n)
    && forall q :: 0 <= q < p ==> Counted(history, rowids, user, nb, q, getListened) < n
  }

  /** The scan has one stopping point. */
  lemma StopsAtUnique(history: set<(string, string)>, rowids: map<int, string>, user: string, n: int,
                      nb: seq<Neighbour>, getListened: bool, p: nat, q: nat)
    requires StopsAt(history, rowids, user, n, nb, getListened, p)
    requires StopsAt(history, rowids, user, n, nb, getListened, q)
    ensures p == q
  {
  }

  /** The scan stops as soon as the counter reaches `n`, so it never counts past `n`. */
  lemma StopsWithin(history: set<(string, string)>, rowids: map<int, string>, user: string, n: int,
                    nb: seq<Neighbour>, getListened: bool, p: nat)
    requires StopsAt(history, rowids, user, n, nb, getListened, p)
    ensures Counted(history, rowids, user, nb, p, getListened) <= if n < 0 then 0 else n
  {
    if p > 0 {
      assert Counted(history, rowids, user, nb, p - 1, getListened) < n;
    }
  }

  /** What `k_neighbors` gathers: the anchor vectors (the seed song, then listened songs) or
      the unheard songs with their similarity. */
  datatype Gathered = Anchors(songs: seq<string>) | Scores(d: Dict)

  /** One turn of the loop of `k_neighbors`: look up the song at neighbour `position` and,
      when there is one, count it and record it as the mode asks. */
  method Visit(history: set<(string, string)>, rowids: map<int, string>, user: string, seed: string,
               nb: seq<Neighbour>, getListened: bool, position: nat,
               anchors: seq<string>, scores: Dict, counter: nat)
    returns (anchors': seq<string>, scores': Dict, counter': nat)
    requires position < |nb|
    requires counter == Counted(history, rowids, user, nb, position, getListened)
    requires getListened ==> anchors == [seed] + Heard(history, rowids, user, nb, position)
    requires !getListened ==> scores == Scored(history, rowids, user, nb, position)
    ensures counter' == Counted(history, rowids, user, nb, position + 1, getListened)
    ensures getListened ==> anchors' == [seed] + Heard(history, rowids, user, nb, position + 1)
    ensures !getListened ==> scores' == Scored(history, rowids, user, nb, position + 1)
  {
    anchors', scores', counter' := anchors, scores, counter;
    var idx := nb[position].1;
    if Hit(rowids, idx) {
      var song := rowids[idx];
      var listened := (user, song) in history;
      if getListened {
        if listened {
          anchors' := anchors + [song];
        }
        counter' := counter + 1;
      } else if !listened {
        scores' := Put(scores, song, 1.0 - nb[position].0);
        counter' := counter + 1;
      }
    }
  }

  /** The loop of `k_neighbors`: walk the neighbours until they run out or the counter
      reaches `n`; positions whose ROWID finds no song are skipped without counting. */
  method Walk(history: set<(string, string)>, rowids: map<int, string>, user: string, seed: string,
              n: int, nb: seq<Neighbour>, getListened: bool)
    returns (anchors: seq<string>, scores: Dict, position: nat)
    ensures StopsAt(history, rowids, user, n, nb, getListened, position)
    ensures getListened ==> anchors == [seed] + Heard(history, rowids, user, nb, position)
    ensures !getListened ==> scores == Scored(history, rowids, user, nb, position)
  {
    anchors := [seed];
    scores := [];
    var counter := 0;
    position := 0;
    while position < |nb| && counter < n
      invariant position <= |nb|
      invariant counter == Counted(history, rowids, user, nb, position, getListened)
      invariant forall q :: 0 <= q < position ==> Counted(history, rowids, user, nb, q, getListened) < n
      invariant getListened ==> anchors == [seed] + Heard(history, rowids, user, nb, position)
      invariant !getListened ==> scores == Scored(history, rowids, user, nb, position)
    {
      anchors, scores, counter := Visit(history, rowids, user, seed, nb, getListened, position, anchors, scores, counter);
      position := position + 1;
    }
  }

  /** `k_neighbors`: the anchors (the seed, then the listened songs met) when collecting
      listened songs, otherwise the unheard songs met with their similarity. */
  method KNeighbors(history: set<(string, string)>, rowids: map<int, string>, user: string, seed: string,
                    n: int, nb: seq<Neighbour>, getListened: bool)
    returns (g: Gathered)
    ensures getListened <==> g.Anchors?
    ensures g.Anchors? ==> exists p: nat :: StopsAt(history, rowids, user, n, nb, true, p)
                                            && g.songs == [seed] + Heard(history, rowids, user, nb, p)
    ensures g.Scores? ==> exists p: nat :: StopsAt(history, rowids, user, n, nb, false, p)
                                           && g.d == Scored(history, rowids, user, nb, p)
    ensures g.Anchors? ==> g.songs[0] == seed && forall i :: 1 <= i < |g.songs| ==> (user, g.songs[i]) in history
    ensures g.Scores? ==> forall k :: k in Keys(g.d) ==> (user, k) !in history
    ensures g.Scores? ==> |g.d| <= if n < 0 then 0 else n
  {
    var anchors, scores, position := Walk(history, rowids, user, seed, n, nb, getListened);
    if getListened {
      HeardListened(history, rowids, user, nb, position);
      g := Anchors(anchors);
    } else {
      ScoredKeys(history, rowids, user, nb, position);
      StopsWithin(history, rowids, user, n, nb, false, position);
      g := Scores(scores);
    }
  }

  /** The song matching the anchors' mean vector exists and the user has not heard it. */
  predicate MeanFresh(history: set<(string, string)>, user: string, meanSong: Option<string>)
  {
    meanSong.Some? && meanSong.value != "" && (user, meanSong.value) !in history
  }

  /** The result before the neighbours of the mean are added: the fresh mean song, if any,
      scored 1. */
  function WithMean(d: Dict, history: set<(string, string)>, user: string, meanSong: Option<string>): Dict
  {
    if MeanFresh(history, user, meanSong) then Put(d, meanSong.value, 1.0) else d
  }

  /** How many songs are still to be found: one fewer once the mean song is taken. */
  function StillToFind(n: int, history: set<(string, string)>, user: string, meanSong: Option<string>): int
  {
    if MeanFresh(history, user, meanSong) then n - 1 else n
  }

  /** The scored songs are distinct: each is stored by assignment. */
  lemma {:induction false} ScoredDistinct(history: set<(string, string)>, rowids: map<int, string>, user: string, nb: seq<Neighbour>, i: nat)
    requires i <= |nb|
    ensures DistinctKeys(Scored(history, rowids, user, nb, i))
  {
    if i > 0 {
      ScoredDistinct(history, rowids, user, nb, i - 1);
      ScoredStep(history, rowids, user, nb, i);
      var x := nb[i - 1];
      PutIfDistinct(Scored(history, rowids, user, nb, i), Scored(history, rowids, user, nb, i - 1), Fresh(history, rowids, user, x.1), SongAt(rowids, x.1), 1.0 - x.0);
    }
  }

  /** A fresh mean song keeps its score of 1 unless a neighbour of the mean scores it again. */
  lemma MeanScoresOne(d: Dict, history: set<(string, string)>, rowids: map<int, string>, user: string,
                      meanSong: Option<string>, nb: seq<Neighbour>, p: nat)
    requires p <= |nb| && MeanFresh(history, user, meanSong)
    requires meanSong.value !in Keys(Scored(history, rowids, user, nb, p))
    ensures Get(PutAll(WithMean(d, history, user, meanSong), Scored(history, rowids, user, nb, p)), meanSong.value) == Some(1.0)
  {
    ScoredDistinct(history, rowids, user, nb, p);
    PutAllGet(WithMean(d, history, user, meanSong), Scored(history, rowids, user, nb, p), meanSong.value);
  }

  class CoolStartRS {
    var recSongs: Dict

    constructor()
      ensures recSongs == []
    {
      recSongs := [];
    }

    /** The centroid path of `recommend_songs`: the fresh mean song, if any, scores 1 and
        takes one place; then the unheard neighbours of the mean are merged into the result. */
    method AddCentroidNeighbours(history: set<(string, string)>, rowids: map<int, string>, user: string,
                                 seed: string, n: int, meanSong: Option<string>, second: seq<Neighbour>)
      modifies this
      ensures exists p: nat :: StopsAt(history, rowids, user, StillToFind(n, history, user, meanSong), second, false, p)
                               && recSongs == PutAll(WithMean(old(recSongs), history, user, meanSong), Scored(history, rowids, user, second, p))
      ensures MeanFresh(history, user, meanSong) ==> meanSong.value in Keys(recSongs)
      ensures forall k :: k in Keys(old(recSongs)) ==> k in Keys(recSongs)
      ensures forall k :: k in Keys(recSongs) ==> (user, k) !in history || k in Keys(old(recSongs))
    {
      var m := StillToFind(n, history, user, meanSong);
      if MeanFresh(history, user, meanSong) {
        PutKeys(recSongs, meanSong.value, 1.0);
        recSongs := Put(recSongs, meanSong.value, 1.0);
      }
      var more := KNeighbors(history, rowids, user, seed, m, second, false);
      PutAllKeys(recSongs, more.d);
      recSongs := PutAll(recSongs, more.d);
    }

    /** `recommend_songs`: gather the anchors among the first neighbours of the seed song. With
        more than one anchor (the seed and a listened song at least), the song matching their
        mean vector, when there is one and it is unheard, scores 1 and takes one place, and
        the unheard neighbours of the mean are added to the earlier result; otherwise the
        result is replaced by the unheard neighbours of the seed song. */
    method RecommendSongs(history: set<(string, string)>, rowids: map<int, string>, user: string, seed: string,
                          n: int, first: seq<Neighbour>, meanSong: Option<string>, second: seq<Neighbour>)
      returns (r: Dict, ghost centroid: bool)
      modifies this
      ensures r == recSongs
      ensures centroid <==> exists p: nat :: StopsAt(history, rowids, user, n, first, true, p)
                                             && |Heard(history, rowids, user, first, p)| >= 1
      ensures centroid ==> exists p: nat :: StopsAt(history, rowids, user, StillToFind(n, history, user, meanSong), second, false, p)
                                            && recSongs == PutAll(WithMean(old(recSongs), history, user, meanSong), Scored(history, rowids, user, second, p))
      ensures centroid && MeanFresh(history, user, meanSong) ==> meanSong.value in Keys(recSongs)
      ensures centroid ==> forall k :: k in Keys(old(recSongs)) ==> k in Keys(recSongs)
      ensures !centroid ==> exists p: nat :: StopsAt(history, rowids, user, n, first, false, p)
                                             && recSongs == Scored(history, rowids, user, first, p)
      ensures !centroid ==> |recSongs| <= if n < 0 then 0 else n
      ensures forall k :: k in Keys(recSongs) ==> (user, k) !in history || (centroid && k in Keys(old(recSongs)))
    {
      var anchors := KNeighbors(history, rowids, user, seed, n, first, true);
      centroid := |anchors.songs| > 1;
      ghost var p: nat :| StopsAt(history, rowids, user, n, first, true, p)
                          && anchors.songs == [seed] + Heard(history, rowids, user, first, p);
      forall q: nat | StopsAt(history, rowids, user, n, first, true, q)
        ensures q == p
      {
        StopsAtUnique(history, rowids, user, n, first, true, p, q);
      }
      if |anchors.songs| > 1 {
        AddCentroidNeighbours(history, rowids, user, seed, n, meanSong, second);
      } else {
        var direct := KNeighbors(history, rowids, user, seed, n, first, false);
        recSongs := direct.d;
      }
      r := recSongs;
    }
  }
}
