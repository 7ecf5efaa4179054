/** The user-based recommender: collect the songs that the users most similar to the current
    user have listened to and the current user has not, count how many of those users heard
    each one, and keep the ones nearest to the song just listened. Similarities, distances
    and random draws are parameters. */
module UserBasedRS {
  import opened Wrappers
  import opened Text
  import opened Errors
  import opened OrderedDict
  import opened RSWeighter

  predicate Distinct<T(==)>(s: seq<T>)
  {
    forall i, j :: 0 <= i < j < |s| ==> s[i] != s[j]
  }

  /** The occurrence table (the pivot of HISTORY): one row of repetition counts per user,
      one column per song, missing pairs filled with 0. */
  predicate IsPivot(users: seq<string>, songs: seq<string>, counts: seq<seq<int>>)
  {
    |counts| == |users| && forall i :: 0 <= i < |counts| ==> |counts[i]| == |songs|
  }

  /** The songs of one row whose count is above zero, in column order. */
  function ListenedIn<T>(songs: seq<T>, row: seq<int>): seq<T>
    requires |row| == |songs|
  {
    if songs == [] then []
    else ListenedIn(songs[..|songs| - 1], row[..|row| - 1]) + (if row[|row| - 1] > 0 then [songs[|songs| - 1]] else [])
  }

  lemma {:induction false} ListenedInMembership<T>(songs: seq<T>, row: seq<int>, s: T)
    requires |row| == |songs|
    ensures s in ListenedIn(songs, row) <==> exists j :: 0 <= j < |songs| && songs[j] == s && row[j] > 0
  {
    if songs != [] {
      var k := |songs| - 1;
      var prev := ListenedIn(songs[..k], row[..k]);
      ListenedInMembership(songs[..k], row[..k], s);
      assert s in ListenedIn(songs, row) <==> s in prev || (row[k] > 0 && songs[k] == s) by {
        assert ListenedIn(songs, row) == prev + (if row[k] > 0 then [songs[k]] else []);
      }
      HeardStep(songs, row, s);
    }
  }

  /** Heard among all columns is heard among all but the last, or in the last. */
  lemma HeardStep<T>(songs: seq<T>, row: seq<int>, s: T)
    requires |row| == |songs| && songs != []
    ensures var k := |songs| - 1;
      (exists j :: 0 <= j < |songs| && songs[j] == s && row[j] > 0) <==>
      (exists j :: 0 <= j < k && songs[..k][j] == s && row[..k][j] > 0) || (row[k] > 0 && songs[k] == s)
  {
    var k := |songs| - 1;
    if exists j :: 0 <= j < k && songs[..k][j] == s && row[..k][j] > 0 {
      var j :| 0 <= j < k && songs[..k][j] == s && row[..k][j] > 0;
      assert songs[j] == s && row[j] > 0;
    }
    if exists j :: 0 <= j < |songs| && songs[j] == s && row[j] > 0 {
      var j :| 0 <= j < |songs| && songs[j] == s && row[j] > 0;
      if j < k {
        assert songs[..k][j] == s && row[..k][j] > 0;
      }
    }
  }

  lemma {:induction false} ListenedInDistinct<T>(songs: seq<T>, row: seq<int>)
    requires |row| == |songs| && Distinct(songs)
    ensures Distinct(ListenedIn(songs, row))
  {
    if songs != [] {
      var k := |songs| - 1;
      ListenedInDistinct(songs[..k], row[..k]);
      ListenedInMembership(songs[..k], row[..k], songs[k]);
    }
  }

  /** `history_per_user`: every user with the songs they have listened to. */
  function HistoryPerUser(users: seq<string>, songs: seq<string>, counts: seq<seq<int>>): (h: seq<(string, seq<string>)>)
    requires IsPivot(users, songs, counts)
    ensures Keys(h) == users
  {
    seq(|users|, i requires 0 <= i < |users| => (users[i], ListenedIn(songs, counts[i])))
  }

  /** Each user is mapped to exactly the song columns where their count is above zero. */
  lemma HistoryPerUserMembership(users: seq<string>, songs: seq<string>, counts: seq<seq<int>>, i: nat, s: string)
    requires IsPivot(users, songs, counts) && i < |users|
    ensures HistoryPerUser(users, songs, counts)[i].0 == users[i]
    ensures s in HistoryPerUser(users, songs, counts)[i].1 <==> exists j :: 0 <= j < |songs| && songs[j] == s && counts[i][j] > 0
  {
    ListenedInMembership(songs, counts[i], s);
  }

  /** Python's `list.pop(i)`, where a negative position counts from the end. */
  function PopAt<T>(s: seq<T>, i: int): (r: seq<T>)
    requires -|s| <= i < |s|
    ensures |r| == |s| - 1
  {
    var j := if i < 0 then i + |s| else i;
    s[..j] + s[j + 1..]
  }

  /** `no_other_items`: without a key (or with an empty one), whether the dict is empty. With
      a key, the key is read as a POSITION (`keys.pop(int(key))`), that item is dropped, and
      the answer is whether nothing remains. */
  function NoOtherItems<V>(d: seq<(string, V)>, key: Option<string>): (r: Result<bool, Error>)
    ensures (key.None? || key.value == "") ==> r == Ok(d == [])
    ensures key.Some? && key.value != "" && ParseInt(key.value).None? ==> r == Err(ValueError)
    ensures key.Some? && key.value != "" && ParseInt(key.value).Some? ==>
      var i := ParseInt(key.value).value;
      (-|d| <= i < |d| ==> r == Ok(|d| == 1)) && (!(-|d| <= i < |d|) ==> r == Err(IndexError))
  {
    if key.None? || key.value == "" then Ok(|d| <= 0)
    else match ParseInt(key.value)
      case None => Err(ValueError)
      case Some(i) => if -|d| <= i < |d| then Ok(|PopAt(Keys(d), i)| == 0) else Err(IndexError)
  }

  /** The user is ranked past position `n` in similarity order (`idx > n_songs`). */
  predicate RankedOut(order: seq<string>, n: int, u: string)
  {
    exists j :: 0 <= j < |order| && j > n && order[j] == u
  }

  /** Among the first `idx` users of the similarity order, `u` is ranked past `n`. */
  predicate RankedOutBefore(order: seq<string>, n: int, idx: nat, u: string)
  {
    exists j :: 0 <= j < idx && j < |order| && j > n && order[j] == u
  }

  lemma RankedOutStep(order: seq<string>, n: int, idx: nat, u: string)
    requires idx < |order|
    ensures RankedOutBefore(order, n, idx + 1, u) <==> RankedOutBefore(order, n, idx, u) || (idx > n && order[idx] == u)
  {
    if RankedOutBefore(order, n, idx + 1, u) && !(idx > n && order[idx] == u) {
      var j :| 0 <= j < idx + 1 && j < |order| && j > n && order[j] == u;
      assert j < idx;
    }
  }

  /** The pruning loop of `recommend_songs`: the users ranked past `n` leave the dict. */
  method Prune(d: seq<(string, seq<string>)>, order: seq<string>, n: int) returns (r: seq<(string, seq<string>)>)
    requires Distinct(order) && forall j :: 0 <= j < |order| ==> order[j] in Keys(d)
    ensures forall u :: Get(r, u) == if RankedOut(order, n, u) then None else Get(d, u)
    ensures forall x :: x in r ==> x in d && !RankedOut(order, n, x.0)
  {
    r := d;
    for idx := 0 to |order|
      invariant forall u :: Get(r, u) == if RankedOutBefore(order, n, idx, u) then None else Get(d, u)
      invariant forall x :: x in r ==> x in d && !RankedOutBefore(order, n, idx, x.0)
    {
      forall u ensures RankedOutBefore(order, n, idx + 1, u) <==> RankedOutBefore(order, n, idx, u) || (idx > n && order[idx] == u) {
        RankedOutStep(order, n, idx, u);
      }
      if idx > n {
        r := Remove(r, order[idx]);
      }
    }
    assert forall u :: RankedOutBefore(order, n, |order|, u) <==> RankedOut(order, n, u);
  }

  /** `[s for s in songs if s not in mine]`. */
  function NotIn(songs: seq<string>, mine: seq<string>): (r: seq<string>)
    ensures forall s :: s in r <==> s in songs && s !in mine
  {
    if songs == [] then []
    else NotIn(songs[..|songs| - 1], mine) + (if songs[|songs| - 1] in mine then [] else [songs[|songs| - 1]])
  }

  type Repetitions = seq<(string, int)>

  /** One more listener of `s`: 1 for a new song, one more otherwise. */
  function Bump(rep: Repetitions, s: string): Repetitions
  {
    Put(rep, s, GetOr(rep, s, 0) + 1)
  }

  /** The repetitions after counting the songs of one user. */
  function TallySongs(rep: Repetitions, songs: seq<string>): Repetitions
  {
    if songs == [] then rep else Bump(TallySongs(rep, songs[..|songs| - 1]), songs[|songs| - 1])
  }

  /** `songs_repetition_dict`: the songs of the other users that the current user has not
      heard, counted user by user. */
  function Tally(others: seq<(string, seq<string>)>, mine: seq<string>): Repetitions
  {
    if others == [] then []
    else TallySongs(Tally(others[..|others| - 1], mine), NotIn(others[|others| - 1].1, mine))
  }

  /** Occurrences of `s` in a list. */
  function Occurrences(songs: seq<string>, s: string): nat
  {
    if songs == [] then 0 else Occurrences(songs[..|songs| - 1], s) + (if songs[|songs| - 1] == s then 1 else 0)
  }

  /** The number of users whose list holds `s`. */
  function HeldBy(others: seq<(string, seq<string>)>, s: string): nat
  {
    if others == [] then 0 else HeldBy(others[..|others| - 1], s) + (if s in others[|others| - 1].1 then 1 else 0)
  }

  /** One bump adds one listener to its own song and none to the others. */
  lemma BumpGet(rep: Repetitions, last: string, s: string)
    ensures GetOr(Bump(rep, last), s, 0) == GetOr(rep, s, 0) + (if last == s then 1 else 0)
    ensures s in Keys(Bump(rep, last)) <==> s in Keys(rep) || s == last
  {
    PutKeys(rep, last, GetOr(rep, last, 0) + 1);
  }

  lemma {:induction false} TallySongsGet(rep: Repetitions, songs: seq<string>, s: string)
    ensures GetOr(TallySongs(rep, songs), s, 0) == GetOr(rep, s, 0) + Occurrences(songs, s)
    ensures s in Keys(TallySongs(rep, songs)) <==> s in Keys(rep) || s in songs
  {
    if songs != [] {
      var init := songs[..|songs| - 1];
      var last := songs[|songs| - 1];
      TallySongsGet(rep, init, s);
      BumpGet(TallySongs(rep, init), last, s);
      InPrefixOrLast(songs, s);
    }
  }

  lemma {:induction false} DistinctOccurrences(songs: seq<string>, s: string)
    requires Distinct(songs)
    ensures Occurrences(songs, s) == if s in songs then 1 else 0
  {
    if songs != [] {
      var init := songs[..|songs| - 1];
      DistinctOccurrences(init, s);
      assert songs == init + [songs[|songs| - 1]];
    }
  }

  lemma {:induction false} NotInDistinct(songs: seq<string>, mine: seq<string>)
    requires Distinct(songs)
    ensures Distinct(NotIn(songs, mine))
  {
    if songs != [] {
      NotInDistinct(songs[..|songs| - 1], mine);
    }
  }

  /** A song is counted exactly when the current user has not heard it and some other user
      has. */
  lemma {:induction false} TallyKeys(others: seq<(string, seq<string>)>, mine: seq<string>, s: string)
    ensures s in Keys(Tally(others, mine)) <==> s !in mine && exists x :: x in others && s in x.1
  {
    if others != [] {
      var init := others[..|others| - 1];
      var last := others[|others| - 1];
      TallyKeys(init, mine, s);
      TallySongsGet(Tally(init, mine), NotIn(last.1, mine), s);
      if exists x :: x in others && s in x.1 {
        var x :| x in others && s in x.1;
        InPrefixOrLast(others, x);
      }
      forall x | x in init ensures x in others {
        InPrefixOrLast(others, x);
      }
    }
  }

  /** Each counted song's repetition is the number of other users who listened to it. */
  lemma {:induction false} TallyGet(others: seq<(string, seq<string>)>, mine: seq<string>, s: string)
    requires forall i :: 0 <= i < |others| ==> Distinct(others[i].1)
    ensures GetOr(Tally(others, mine), s, 0) == if s in mine then 0 else HeldBy(others, s)
  {
    if others != [] {
      var init := others[..|others| - 1];
      var last := others[|others| - 1];
      TallyGet(init, mine, s);
      TallySongsGet(Tally(init, mine), NotIn(last.1, mine), s);
      NotInDistinct(last.1, mine);
      DistinctOccurrences(NotIn(last.1, mine), s);
    }
  }

  /** The inner loop: count the valid songs of one user. */
  method CountUser(rep: Repetitions, valid: seq<string>) returns (r: Repetitions)
    ensures r == TallySongs(rep, valid)
  {
    r := rep;
    for j := 0 to |valid|
      invariant r == TallySongs(rep, valid[..j])
    {
      assert valid[..j + 1][..j] == valid[..j];
      var song := valid[j];
      if song !in Keys(r) {
        assert GetOr(r, song, 0) + 1 == 1;
        r := Put(r, song, 1);
      } else {
        r := Put(r, song, GetOr(r, song, 0) + 1);
      }
    }
    assert valid[..|valid|] == valid;
  }

  /** The counting loops of `recommend_songs`. */
  method CountRepetitions(others: seq<(string, seq<string>)>, mine: seq<string>) returns (rep: Repetitions)
    ensures rep == Tally(others, mine)
  {
    rep := [];
    for i := 0 to |others|
      invariant rep == Tally(others[..i], mine)
    {
      assert others[..i + 1][..i] == others[..i];
      var valid := NotIn(others[i].1, mine);
      rep := CountUser(rep, valid);
    }
    assert others[..|others|] == others;
  }

  /** Python's `s[i]` on a list of length `n`. */
  function PyIndex(n: nat, i: int): (p: Option<nat>)
    ensures p.Some? <==> -(n as int) <= i < n
    ensures p.Some? ==> p.value < n && (p.value == i || p.value == i + n)
  {
    if 0 <= i < n then Some(i as nat) else if -(n as int) <= i < 0 then Some((i + n) as nat) else None
  }

  /** Some neighbour position is outside the list of repetition keys. */
  predicate BadPosition(keys: seq<string>, nb: seq<(real, int)>)
  {
    exists j :: 0 <= j < |nb| && PyIndex(|keys|, nb[j].1).None?
  }

  /** The neighbours as (song, similarity) pairs. */
  function Pairs(keys: seq<string>, nb: seq<(real, int)>): (p: Dict)
    requires !BadPosition(keys, nb)
    ensures |p| == |nb|
    ensures forall j :: 0 <= j < |nb| ==> p[j].0 in keys && p[j].1 == 1.0 - nb[j].0
  {
    seq(|nb|, j requires 0 <= j < |nb| => (keys[PyIndex(|keys|, nb[j].1).value], 1.0 - nb[j].0))
  }

  /** `dict(zip(map(keys.__getitem__, positions), 1 - distances))`: an IndexError when a
      position is outside the list. */
  function Closest(keys: seq<string>, nb: seq<(real, int)>): Result<Dict, Error>
  {
    if BadPosition(keys, nb) then Err(IndexError) else Ok(PutAll([], Pairs(keys, nb)))
  }

  /** The candidates are read from the repetition keys, each with `1 - distance` of one of
      its neighbour positions. */
  lemma ClosestKeys(keys: seq<string>, nb: seq<(real, int)>)
    requires !BadPosition(keys, nb)
    ensures forall k :: k in Keys(Closest(keys, nb).value) ==> k in keys
  {
    var pairs := Pairs(keys, nb);
    PutAllKeys([], pairs);
    forall k | k in Keys(Closest(keys, nb).value) ensures k in keys {
      assert k in Keys(pairs);
      var j :| 0 <= j < |pairs| && pairs[j].0 == k;
    }
  }

  datatype SampleMode = TopN | Uniform | Distribution | Unknown

  /** The sample size when not TopN: the largest size that is neither above `n` nor as
      large as the number of candidates. */
  function Clamp(n: int, len: nat): (m: int)
    ensures m <= n && m < len
    ensures m == n || m == len - 1
  {
    if n < len then n else len - 1
  }

  /** `m` distinct positions below `len`, as `np.random.choice(..., replace=False)` returns. */
  predicate IsDraw(draw: seq<nat>, m: int, len: nat)
  {
    |draw| == m && Distinct(draw) && forall i :: 0 <= i < |draw| ==> draw[i] < len
  }

  /** `{s: closest[s] for s in sample}`. */
  function Picked(keys: seq<string>, closest: Dict, draw: seq<nat>): (r: Dict)
    requires forall i :: 0 <= i < |draw| ==> draw[i] < |keys| && keys[draw[i]] in Keys(closest)
    ensures forall k :: k in Keys(r) ==> Get(r, k) == Get(closest, k)
  {
    if draw == [] then []
    else
      var init := draw[..|draw| - 1];
      var k := keys[draw[|draw| - 1]];
      assert forall i :: 0 <= i < |init| ==> init[i] == draw[i];
      PutKeys(Picked(keys, closest, init), k, GetOr(closest, k, 0.0));
      Put(Picked(keys, closest, init), k, GetOr(closest, k, 0.0))
  }

  /** The repetition keys that are among the closest songs, in repetition order. */
  function Filtered(rep: Repetitions, closest: Dict): (r: seq<string>)
    ensures forall i :: 0 <= i < |r| ==> r[i] in Keys(closest)
  {
    if rep == [] then []
    else Filtered(rep[..|rep| - 1], closest) + (if rep[|rep| - 1].0 in Keys(closest) then [rep[|rep| - 1].0] else [])
  }

  /** Sampling weight of each closest song: its similarity times its repetition. */
  function Weights(closest: Dict, rep: Repetitions): (w: seq<real>)
    ensures |w| == |closest|
  {
    seq(|closest|, i requires 0 <= i < |closest| => closest[i].1 * GetOr(rep, closest[i].0, 0) as real)
  }

  predicate AllEqual(w: seq<real>)
  {
    forall i :: 0 <= i < |w| ==> w[i] == w[0]
  }

  /** The smallest weight, `np.min`. */
  function MinOf(w: seq<real>): (lo: real)
    requires w != []
    ensures forall i :: 0 <= i < |w| ==> lo <= w[i]
    ensures lo in w
  {
    if |w| == 1 then w[0]
    else
      var m := MinOf(w[..|w| - 1]);
      if w[|w| - 1] < m then w[|w| - 1] else m
  }

  /** How many weights lie strictly above `lo`. With `lo` the smallest weight these are the
      entries that min-max scaling leaves nonzero. */
  function CountAbove(w: seq<real>, lo: real): (c: nat)
    ensures c <= |w|
  {
    if w == [] then 0 else CountAbove(w[..|w| - 1], lo) + (if w[|w| - 1] > lo then 1 else 0)
  }

  /** A weight at or below `lo` is not counted. */
  lemma {:induction false} OneAtMost(w: seq<real>, lo: real, i: nat)
    requires i < |w| && w[i] <= lo
    ensures CountAbove(w, lo) <= |w| - 1
  {
    if i < |w| - 1 {
      OneAtMost(w[..|w| - 1], lo, i);
    }
  }

  /** Two weights at or below `lo` are not counted. */
  lemma {:induction false} TwoAtMost(w: seq<real>, lo: real, i: nat, j: nat)
    requires i < j < |w| && w[i] <= lo && w[j] <= lo
    ensures CountAbove(w, lo) <= |w| - 2
  {
    if j == |w| - 1 {
      OneAtMost(w[..|w| - 1], lo, i);
    } else {
      TwoAtMost(w[..|w| - 1], lo, i, j);
    }
  }

  /** A chooser that returns valid draws, as the random generator does. */
  ghost predicate IsChooser(choose: (nat, nat) -> seq<nat>)
  {
    forall m: nat, len: nat :: m < len ==> IsDraw(choose(m, len), m, len)
  }

  /** `sample_recommendation`. TopN with a nonzero `n` keeps the first `n + 1` entries;
      Uniform and Distribution draw `Clamp(n, len)` songs without replacement; any other
      mode returns the candidates. The Distribution weights are min-max scaled, which has no
      value (NaN) when they are all equal and leaves zero every weight equal to the smallest,
      and a draw without replacement needs as many nonzero weights as songs drawn. */
  function Sample(closest: Dict, rep: Repetitions, mode: SampleMode, n: int, choose: (nat, nat) -> seq<nat>): (r: Result<Dict, Error>)
    requires IsChooser(choose)
  {
    if mode.TopN? && n != 0 then Ok(Take(closest, n + 1))
    else
      var m := Clamp(n, |closest|);
      if mode.Uniform? then
        if |closest| == 0 then Err(ZeroDivisionError)
        else if m < 0 then Err(ValueError)
        else Ok(Picked(Keys(closest), closest, choose(m, |closest|)))
      else if mode.Distribution? then
        var keys := Filtered(rep, closest);
        if exists k :: k in Keys(closest) && k !in Keys(rep) then Err(KeyError)
        else if |closest| == 0 || AllEqual(Weights(closest, rep)) || m < 0 || |keys| != |closest| then Err(ValueError)
        else if CountAbove(Weights(closest, rep), MinOf(Weights(closest, rep))) < m then Err(ValueError)
        else Ok(Picked(keys, closest, choose(m, |keys|)))
      else Ok(closest)
  }

  /** What sampling promises: TopN is a prefix of the candidates, in order; the random modes
      pick `Clamp(n, len)` distinct candidates with their own scores; an unknown mode
      changes nothing. */
  lemma SampleFacts(closest: Dict, rep: Repetitions, mode: SampleMode, n: int, choose: (nat, nat) -> seq<nat>)
    requires IsChooser(choose)
    ensures var r := Sample(closest, rep, mode, n, choose);
      && (mode.TopN? && n != 0 ==> r.Ok? && r.value <= closest
                                    && (n >= 0 ==> |r.value| == if n + 1 < |closest| then n + 1 else |closest|))
      && ((mode.TopN? && n == 0) || mode.Unknown? ==> r == Ok(closest))
      && (mode.Uniform? ==> (r.Err? <==> |closest| == 0 || Clamp(n, |closest|) < 0))
      && (r.Ok? ==> forall k :: k in Keys(r.value) ==> Get(r.value, k) == Get(closest, k))
  {
    SampleKeepsScores(closest, rep, mode, n, choose);
    if mode.Uniform? {
      var r := Sample(closest, rep, mode, n, choose);
      assert r.Err? <==> |closest| == 0 || Clamp(n, |closest|) < 0;
    }
  }

  /** Min-max scaling gives every weight equal to the smallest one probability zero. With two
      candidates tied there, drawing all candidates but one without replacement fails. */
  lemma TiedMinimumFails(closest: Dict, rep: Repetitions, n: int, choose: (nat, nat) -> seq<nat>, i: nat, j: nat)
    requires IsChooser(choose)
    requires forall k :: k in Keys(closest) ==> k in Keys(rep)
    requires i < j < |closest| && n >= |closest| - 1
    requires Weights(closest, rep)[i] == Weights(closest, rep)[j] == MinOf(Weights(closest, rep))
    ensures Sample(closest, rep, Distribution, n, choose) == Err(ValueError)
  {
    var w := Weights(closest, rep);
    TwoAtMost(w, MinOf(w), i, j);
  }

  /** Every sampled song keeps its own score. */
  lemma SampleKeepsScores(closest: Dict, rep: Repetitions, mode: SampleMode, n: int, choose: (nat, nat) -> seq<nat>)
    requires IsChooser(choose)
    ensures var r := Sample(closest, rep, mode, n, choose);
      r.Ok? ==> forall k :: k in Keys(r.value) ==> Get(r.value, k) == Get(closest, k)
  {
    if mode.TopN? && n != 0 {
      var t := Take(closest, n + 1);
      assert Sample(closest, rep, mode, n, choose) == Ok(t);
      forall k | k in Keys(t) ensures Get(t, k) == Get(closest, k) {
        TakeGet(closest, n + 1, k);
      }
    }
  }

  /** Python's slice keeps each key's first value, and a dict's first value is its only one. */
  lemma {:induction false} TakeGet(d: Dict, n: int, k: string)
    requires k in Keys(Take(d, n))
    ensures Get(Take(d, n), k) == Get(d, k)
  {
    var t := Take(d, n);
    PrefixGet(t, d, k);
  }

  lemma {:induction false} PrefixGet(t: Dict, d: Dict, k: string)
    requires t <= d && k in Keys(t)
    ensures Get(t, k) == Get(d, k)
  {
    if t[0].0 != k {
      assert Keys(t) == [t[0].0] + Keys(t[1..]);
      PrefixGet(t[1..], d[1..], k);
    }
  }

  /** A song the model may recommend: the current user has not heard it and some other user
      still among the most similar ones has. */
  predicate Recommendable(users: seq<string>, songs: seq<string>, counts: seq<seq<int>>, current: string,
                          order: seq<string>, n: int, k: string)
    requires IsPivot(users, songs, counts)
  {
    var h := HistoryPerUser(users, songs, counts);
    k !in GetOr(h, current, []) && exists x :: x in h && x.0 != current && !RankedOut(order, n, x.0) && k in x.1
  }

  /** The neighbour count `k_neighbors` asks for: `n_songs` with local neighbours, otherwise
      every candidate. The nearest-neighbour search refuses a count that is not positive or
      exceeds the candidates it was fitted on. */
  function NeighbourCount(localNeighbors: bool, n: int, candidates: nat): (r: Result<nat, Error>)
    ensures r.Ok? ==> r.value <= candidates && (localNeighbors ==> r.value == n)
    ensures r.Ok? <==> !localNeighbors || 0 < n <= candidates
    ensures r.Err? ==> r.error == ValueError
  {
    if !localNeighbors then Ok(candidates)
    else if n <= 0 || n > candidates then Err(ValueError)
    else Ok(n)
  }

  class UserBasedRS {
    var recSongs: Option<Dict>

    constructor()
      ensures recSongs.None?
    {
      recSongs := None;
    }

    /** `recommend_songs`. The occurrence table, the similarity order of the other users, the
        neighbours of the listened song among the candidates (distance, position in the
        repetition dict) and the random chooser are given. */
    method RecommendSongs(users: seq<string>, songs: seq<string>, counts: seq<seq<int>>, current: string,
                          listened: string, n: int, mode: SampleMode, localNeighbors: bool, order: seq<string>,
                          nb: seq<(real, int)>, choose: (nat, nat) -> seq<nat>)
      returns (r: Result<Dict, Error>)
      requires IsPivot(users, songs, counts) && Distinct(songs) && IsChooser(choose)
      requires Distinct(order) && forall j :: 0 <= j < |order| ==> order[j] in users && order[j] != current
      modifies this
      ensures listened !in songs ==> r == Err(KeyError)
      ensures r.Ok? && localNeighbors && n <= 0 ==> r.value == [] && recSongs == old(recSongs)
      ensures r.Err? ==> recSongs == old(recSongs)
      ensures r.Ok? ==> (recSongs == old(recSongs) && r.value == []) || (recSongs == Some(r.value) && SortedDesc(r.value))
      ensures r.Ok? ==> forall k :: k in Keys(r.value) ==> Recommendable(users, songs, counts, current, order, n, k)
    {
      if listened !in songs {
        return Err(KeyError);
      }
      var h := HistoryPerUser(users, songs, counts);
      var none := NoOtherItems(h, Some(current));
      if none.Err? {
        return Err(none.error);
      }
      if none.value {
        return Ok([]);
      }
      if current !in Keys(h) {
        return Err(AttributeError);
      }
      var pruned := Prune(h, order, n);
      var mine := GetOr(pruned, current, []);
      var others := Remove(pruned, current);
      var rep := CountRepetitions(others, mine);
      if rep == [] {
        return Ok([]);
      }
      var asked := NeighbourCount(localNeighbors, n, |rep|);
      if asked.Err? {
        return Err(asked.error);
      }
      var closest := Closest(Keys(rep), nb);
      if closest.Err? {
        return Err(closest.error);
      }
      ClosestKeys(Keys(rep), nb);
      var sampled := Sample(closest.value, rep, mode, n, choose);
      if sampled.Err? {
        return Err(sampled.error);
      }
      var sorted := SortByScoreDesc(sampled.value);
      SortByScoreDescFacts(sampled.value);
      CandidatesRecommendable(users, songs, counts, current, order, n, h, pruned, others, rep, closest.value, mode, choose, sorted, sampled.value);
      recSongs := Some(sorted);
      r := Ok(sorted);
    }
  }

  /** A sampled song is a candidate. */
  lemma SampledKeys(closest: Dict, rep: Repetitions, mode: SampleMode, n: int, choose: (nat, nat) -> seq<nat>, k: string)
    requires IsChooser(choose)
    requires Sample(closest, rep, mode, n, choose).Ok? && k in Keys(Sample(closest, rep, mode, n, choose).value)
    ensures k in Keys(closest)
  {
    SampleFacts(closest, rep, mode, n, choose);
  }

  /** A counted song is unheard by the current user and heard by a kept neighbour. */
  lemma CountedRecommendable(users: seq<string>, songs: seq<string>, counts: seq<seq<int>>, current: string,
                             order: seq<string>, n: int, h: seq<(string, seq<string>)>,
                             pruned: seq<(string, seq<string>)>, k: string)
    requires IsPivot(users, songs, counts)
    requires h == HistoryPerUser(users, songs, counts) && current in Keys(h)
    requires forall u :: Get(pruned, u) == if RankedOut(order, n, u) then None else Get(h, u)
    requires forall x :: x in pruned ==> x in h && !RankedOut(order, n, x.0)
    requires !RankedOut(order, n, current)
    requires k in Keys(Tally(Remove(pruned, current), GetOr(pruned, current, [])))
    ensures Recommendable(users, songs, counts, current, order, n, k)
  {
    var mine := GetOr(pruned, current, []);
    assert mine == GetOr(h, current, []);
    TallyKeys(Remove(pruned, current), mine, k);
    var x :| x in Remove(pruned, current) && k in x.1;
    assert x in h && x.0 != current && !RankedOut(order, n, x.0);
  }

  /** The chain behind `RecommendSongs`: a sorted sample key is a sampled key, a candidate,
      a counted song, hence unheard by the current user and heard by a kept neighbour. */
  /** A key of a permutation of a dict is a key of the dict. */
  lemma PermutedKeys(sorted: Dict, sampled: Dict, k: string)
    requires multiset(sorted) == multiset(sampled) && k in Keys(sorted)
    ensures k in Keys(sampled)
  {
    var i :| 0 <= i < |sorted| && Keys(sorted)[i] == k;
    assert sorted[i] in multiset(sampled);
    var j :| 0 <= j < |sampled| && sampled[j] == sorted[i];
    assert Keys(sampled)[j] == k;
  }

  lemma CandidatesRecommendable(users: seq<string>, songs: seq<string>, counts: seq<seq<int>>, current: string,
                                order: seq<string>, n: int, h: seq<(string, seq<string>)>,
                                pruned: seq<(string, seq<string>)>, others: seq<(string, seq<string>)>,
                                rep: Repetitions, closest: Dict, mode: SampleMode, choose: (nat, nat) -> seq<nat>,
                                sorted: Dict, sampled: Dict)
    requires IsPivot(users, songs, counts) && IsChooser(choose)
    requires h == HistoryPerUser(users, songs, counts) && current in Keys(h)
    requires forall u :: Get(pruned, u) == if RankedOut(order, n, u) then None else Get(h, u)
    requires forall x :: x in pruned ==> x in h && !RankedOut(order, n, x.0)
    requires !RankedOut(order, n, current)
    requires others == Remove(pruned, current)
    requires rep == Tally(others, GetOr(pruned, current, []))
    requires forall k :: k in Keys(closest) ==> k in Keys(rep)
    requires Sample(closest, rep, mode, n, choose).Ok? && sampled == Sample(closest, rep, mode, n, choose).value
    requires multiset(sorted) == multiset(sampled)
    ensures forall k :: k in Keys(sorted) ==> Recommendable(users, songs, counts, current, order, n, k)
  {
    forall k | k in Keys(sorted) ensures Recommendable(users, songs, counts, current, order, n, k) {
      PermutedKeys(sorted, sampled, k);
      SampledKeys(closest, rep, mode, n, choose, k);
      CountedRecommendable(users, songs, counts, current, order, n, h, pruned, k);
    }
  }
}
