/** The ensemble handler. `refresh` activates the recommenders whose tables hold data;
    `recommend_songs` runs the active ones whose arguments are given, weighs them uniformly,
    adds the weighted scores into the handler's running dict, divides by the number of
    recommenders that ran and keeps the best songs. What each recommender returns is the
    parameter `results` (an `Outputs`); the recommenders themselves are modelled in their own
    modules. */
module MusicRSHandler {
  import opened Wrappers
  import opened Errors
  import opened OrderedDict
  import SqlHandler
  import opened RSWeighter

  /** The database: every table's rows. */
  type Tables = map<string, seq<seq<SqlHandler.Value>>>

  /** Every table of the schema has at least two columns. */
  predicate Wide(db: Tables)
  {
    forall t :: t in db ==> forall i :: 0 <= i < |db[t]| ==> |db[t][i]| >= 2
  }

  /** `exist`: the table exists and `is_empty` says it holds something. */
  function Exist(db: Tables, table: string): (b: bool)
    requires Wide(db)
    ensures b <==> table in db && |db[table]| > 0
  {
    table in db && (
      SqlHandler.IsEmptyWide(db[table]);
      SqlHandler.IsEmpty(db[table]) == Ok(false))
  }

  /** The recommenders in the order `refresh` activates them and `recommend_songs` runs them. */
  const Order: seq<string> := ["CoolStartRS", "RelevanceBasedRS", "WeightedMFBasedRS", "UserBasedRS"]

  /** A recommender's position in `Order`. */
  function Rank(name: string): nat
  {
    if name == "CoolStartRS" then 0
    else if name == "RelevanceBasedRS" then 1
    else if name == "WeightedMFBasedRS" then 2
    else 3
  }

  /** Each name once, in the order of `Order`. */
  predicate Ordered(names: seq<string>)
  {
    (forall i :: 0 <= i < |names| ==> names[i] in Order)
    && forall i, j :: 0 <= i < j < |names| ==> Rank(names[i]) < Rank(names[j])
  }

  /** `[name]` when the guard holds, nothing otherwise: one guarded step of `refresh` or of
      `recommend_songs`. */
  function Gate(go: bool, name: string): (s: seq<string>)
    ensures forall x :: x in s <==> go && x == name
  {
    if go then [name] else []
  }

  /** Every name ranks below `k`. */
  predicate Below(names: seq<string>, k: nat)
  {
    forall i :: 0 <= i < |names| ==> Rank(names[i]) < k
  }

  /** A guarded step appends a name that ranks above every earlier one. */
  lemma OrderedGate(names: seq<string>, go: bool, name: string)
    requires Ordered(names) && name in Order && Below(names, Rank(name))
    ensures Ordered(names + Gate(go, name)) && Below(names + Gate(go, name), Rank(name) + 1)
  {
    if !go {
      assert names + Gate(go, name) == names;
    }
  }

  /** The guarded step of the recommender in position `i` of `Order`. */
  lemma OrderedStep(names: seq<string>, go: bool, i: nat)
    requires i < |Order| && Ordered(names) && Below(names, i)
    ensures Ordered(names + Gate(go, Order[i])) && Below(names + Gate(go, Order[i]), i + 1)
  {
    OrderRank(i);
    OrderedGate(names, go, Order[i]);
  }

  /** The four guarded steps, in the order of `Order`, give an ordered list. */
  lemma GatesOrdered(a: bool, b: bool, c: bool, d: bool)
    ensures Ordered(Gate(a, "CoolStartRS") + Gate(b, "RelevanceBasedRS") + Gate(c, "WeightedMFBasedRS")
                    + Gate(d, "UserBasedRS"))
  {
    var s0: seq<string> := [];
    var s1 := s0 + Gate(a, Order[0]);
    OrderedStep(s0, a, 0);
    var s2 := s1 + Gate(b, Order[1]);
    OrderedStep(s1, b, 1);
    var s3 := s2 + Gate(c, Order[2]);
    OrderedStep(s2, c, 2);
    OrderedStep(s3, d, 3);
    assert s0 + Gate(a, Order[0]) == Gate(a, Order[0]);
  }

  /** The recommenders `refresh` activates: CoolStartRS and UserBasedRS need SONGS and
      HISTORY, RelevanceBasedRS needs SONGS and WeightedMFBasedRS needs RATINGS. */
  function Active(db: Tables): (names: seq<string>)
    requires Wide(db)
    ensures "CoolStartRS" in names <==> "SONGS" in db && |db["SONGS"]| > 0 && "HISTORY" in db && |db["HISTORY"]| > 0
    ensures "RelevanceBasedRS" in names <==> "SONGS" in db && |db["SONGS"]| > 0
    ensures "WeightedMFBasedRS" in names <==> "RATINGS" in db && |db["RATINGS"]| > 0
    ensures "UserBasedRS" in names <==> "SONGS" in db && |db["SONGS"]| > 0 && "HISTORY" in db && |db["HISTORY"]| > 0
    ensures Ordered(names)
  {
    var songs := Exist(db, "SONGS");
    var history := Exist(db, "HISTORY");
    var ratings := Exist(db, "RATINGS");
    GatesOrdered(songs && history, songs, ratings && ratings, songs && history);
    Gate(songs && history, "CoolStartRS") + Gate(songs, "RelevanceBasedRS")
    + Gate(ratings && ratings, "WeightedMFBasedRS") + Gate(songs && history, "UserBasedRS")
  }

  /** Whether `recommend_songs` has the arguments the recommender needs. */
  predicate Given(name: string, user: Option<string>, song: Option<string>, columns: Option<seq<string>>)
  {
    if name == "CoolStartRS" then user.Some? && song.Some?
    else if name == "RelevanceBasedRS" then columns.Some?
    else if name == "UserBasedRS" then song.Some?
    else true
  }

  /** The recommenders one call runs, in run order. */
  function Selected(active: seq<string>, user: Option<string>, song: Option<string>, columns: Option<seq<string>>)
    : (sel: seq<string>)
    ensures forall name :: name in sel <==> name in Order && name in active && Given(name, user, song, columns)
    ensures Ordered(sel)
  {
    var a := "CoolStartRS" in active && user.Some? && song.Some?;
    var b := "RelevanceBasedRS" in active && columns.Some?;
    var c := "WeightedMFBasedRS" in active;
    var d := "UserBasedRS" in active && song.Some?;
    GatesOrdered(a, b, c, d);
    Gate(a, "CoolStartRS") + Gate(b, "RelevanceBasedRS") + Gate(c, "WeightedMFBasedRS") + Gate(d, "UserBasedRS")
  }

  /** What each recommender's `recommend_songs` returns in one call, as a dict. */
  datatype Outputs = Outputs(coolStart: Dict, relevance: Dict, weightedMF: Dict, userBased: Dict)

  /** The output of the recommender called `name` (an unknown name never runs). */
  function Output(o: Outputs, name: string): Dict
  {
    if name == "CoolStartRS" then o.coolStart
    else if name == "RelevanceBasedRS" then o.relevance
    else if name == "WeightedMFBasedRS" then o.weightedMF
    else if name == "UserBasedRS" then o.userBased
    else []
  }

  /** Every output is a dict. */
  predicate OutputsAreDicts(o: Outputs)
  {
    DistinctKeys(o.coolStart) && DistinctKeys(o.relevance) && DistinctKeys(o.weightedMF) && DistinctKeys(o.userBased)
  }

  /** The suggestions of the recommenders that ran, keyed by recommender, in run order. */
  function Suggested(sel: seq<string>, results: Outputs): (sugg: Suggestions)
    ensures |sugg| == |sel|
  {
    if sel == [] then [] else Suggested(sel[..|sel| - 1], results) + [(sel[|sel| - 1], Output(results, sel[|sel| - 1]))]
  }

  /** `recommendations` after the recommenders that ran stored their results. */
  function Recorded(m: map<string, Dict>, sel: seq<string>, results: Outputs): map<string, Dict>
  {
    m + map name | name in sel :: Output(results, name)
  }

  /** A score times a weight. */
  function Times(score: real, weight: real): real
  {
    score * weight
  }

  /** A running total plus a weighted score. */
  function Plus(total: real, x: real): real
  {
    total + x
  }

  /** `rec_songs[song] = rec_songs[song] + x`, or `= x` for a song not yet there. */
  function AddScore(d: Dict, song: string, x: real): Dict
  {
    match Get(d, song)
    case None => Put(d, song, x)
    case Some(v) => Put(d, song, Plus(v, x))
  }

  /** One recommender's suggestions, each score times the recommender's weight, added in
      item order. */
  function AddScores(acc: Dict, items: Dict, w: real): Dict
    decreases |items|
  {
    if items == [] then acc else AddScores(AddScore(acc, items[0].0, Times(items[0].1, w)), items[1..], w)
  }

  /** Every recommender's suggestions added in, in run order, with the recommender's weight. */
  function Accumulate(acc: Dict, sugg: Suggestions, w: seq<real>): Dict
    requires |w| == |sugg|
    decreases |sugg|
  {
    if sugg == [] then acc else Accumulate(AddScores(acc, sugg[0].1, w[0]), sugg[1..], w[1..])
  }

  /** A total divided by a count. */
  function Over(total: real, n: real): real
    requires n != 0.0
  {
    total / n
  }

  /** Every score divided by `n`. */
  function Divided(d: Dict, n: real): Dict
    requires n != 0.0 || d == []
  {
    seq(|d|, i requires 0 <= i < |d| => (d[i].0, Over(d[i].1, n)))
  }

  /** The running dict after one call's merge, before sorting: the weighted sum with uniform
      weights, divided by the number of recommenders that ran. */
  function Ensemble(prev: Dict, sugg: Suggestions): Dict
    requires |sugg| > 0 || prev == []
  {
    Divided(Accumulate(prev, sugg, Uniform(|sugg|)), |sugg| as real)
  }

  /** Some recommender proposed the song. */
  predicate Proposed(sugg: Suggestions, song: string)
  {
    exists i :: 0 <= i < |sugg| && song in Keys(sugg[i].1)
  }

  /** Σ score × weight of a song over the recommenders; 0 for one that does not propose it. */
  function Contribution(sugg: Suggestions, w: seq<real>, song: string): real
    requires |w| == |sugg|
    decreases |sugg|
  {
    if sugg == [] then 0.0 else Times(GetOr(sugg[0].1, song, 0.0), w[0]) + Contribution(sugg[1..], w[1..], song)
  }

  /** Σ score of a song over the recommenders. */
  function ScoreSum(sugg: Suggestions, song: string): real
    decreases |sugg|
  {
    if sugg == [] then 0.0 else GetOr(sugg[0].1, song, 0.0) + ScoreSum(sugg[1..], song)
  }

  /** Every recommender returns a dict. */
  predicate AllDicts(sugg: Suggestions)
  {
    forall i :: 0 <= i < |sugg| ==> DistinctKeys(sugg[i].1)
  }

  lemma PutHas<K(!new), V>(d: seq<(K, V)>, k: K, v: V, x: K)
    ensures x in Keys(Put(d, k, v)) <==> x in Keys(d) || x == k
  {
    if x != k {
      assert Get(Put(d, k, v), x) == Get(d, x);
    }
  }

  /** Adding `x` to one song's total changes that total only. */
  lemma AddScoreGet(acc: Dict, k: string, x: real, song: string)
    ensures GetOr(AddScore(acc, k, x), song, 0.0) == GetOr(acc, song, 0.0) + (if song == k then x else 0.0)
    ensures song in Keys(AddScore(acc, k, x)) <==> song in Keys(acc) || song == k
  {
    match Get(acc, k)
    case None => PutHas(acc, k, x, song);
    case Some(v) => PutHas(acc, k, Plus(v, x), song);
  }

  /** Adding one recommender's suggestions adds its weighted score to each song's total, and
      the songs of the total are those already there and those it proposes. */
  lemma {:induction false} AddScoresGet(acc: Dict, items: Dict, w: real, song: string)
    requires DistinctKeys(items)
    ensures GetOr(AddScores(acc, items, w), song, 0.0) == GetOr(acc, song, 0.0) + Times(GetOr(items, song, 0.0), w)
    ensures song in Keys(AddScores(acc, items, w)) <==> song in Keys(acc) || song in Keys(items)
    decreases |items|
  {
    if items != [] {
      var k := items[0].0;
      var rest := items[1..];
      var acc' := AddScore(acc, k, Times(items[0].1, w));
      DistinctTail(items);
      AddScoreGet(acc, k, Times(items[0].1, w), song);
      AddScoresGet(acc', rest, w, song);
      assert Keys(items) == [k] + Keys(rest);
      if song != k {
        assert Get(items, song) == Get(rest, song);
      }
    }
  }

  lemma ProposedTail(sugg: Suggestions, song: string)
    requires sugg != []
    ensures Proposed(sugg, song) <==> song in Keys(sugg[0].1) || Proposed(sugg[1..], song)
  {
    var rest := sugg[1..];
    if Proposed(rest, song) {
      var i :| 0 <= i < |rest| && song in Keys(rest[i].1);
      assert sugg[i + 1] == rest[i];
    }
    if Proposed(sugg, song) && song !in Keys(sugg[0].1) {
      var i :| 0 <= i < |sugg| && song in Keys(sugg[i].1);
      assert rest[i - 1] == sugg[i];
    }
  }

  lemma AllDictsTail(sugg: Suggestions)
    requires sugg != [] && AllDicts(sugg)
    ensures DistinctKeys(sugg[0].1) && AllDicts(sugg[1..])
  {
    var rest := sugg[1..];
    forall i | 0 <= i < |rest| ensures DistinctKeys(rest[i].1) {
      assert rest[i] == sugg[i + 1];
    }
  }

  /** After all recommenders, a song's total is what it held plus Σ score × weight. */
  lemma {:induction false} AccumulateGet(acc: Dict, sugg: Suggestions, w: seq<real>, song: string)
    requires |w| == |sugg| && AllDicts(sugg)
    ensures GetOr(Accumulate(acc, sugg, w), song, 0.0) == GetOr(acc, song, 0.0) + Contribution(sugg, w, song)
    decreases |sugg|
  {
    if sugg != [] {
      AllDictsTail(sugg);
      AddScoresGet(acc, sugg[0].1, w[0], song);
      AccumulateGet(AddScores(acc, sugg[0].1, w[0]), sugg[1..], w[1..], song);
    }
  }

  /** The songs of the total are those already there and those some recommender proposed. */
  lemma {:induction false} AccumulateKeys(acc: Dict, sugg: Suggestions, w: seq<real>, song: string)
    requires |w| == |sugg| && AllDicts(sugg)
    ensures song in Keys(Accumulate(acc, sugg, w)) <==> song in Keys(acc) || Proposed(sugg, song)
    decreases |sugg|
  {
    if sugg != [] {
      AllDictsTail(sugg);
      AddScoresGet(acc, sugg[0].1, w[0], song);
      AccumulateKeys(AddScores(acc, sugg[0].1, w[0]), sugg[1..], w[1..], song);
      ProposedTail(sugg, song);
    }
  }

  /** Adding keeps a dict a dict. */
  lemma {:induction false} AccumulateDistinct(acc: Dict, sugg: Suggestions, w: seq<real>)
    requires |w| == |sugg| && DistinctKeys(acc)
    ensures DistinctKeys(Accumulate(acc, sugg, w))
    decreases |sugg|
  {
    if sugg != [] {
      AddScoresDistinct(acc, sugg[0].1, w[0]);
      AccumulateDistinct(AddScores(acc, sugg[0].1, w[0]), sugg[1..], w[1..]);
    }
  }

  lemma AddScoreDistinct(acc: Dict, k: string, x: real)
    requires DistinctKeys(acc)
    ensures DistinctKeys(AddScore(acc, k, x))
  {
    match Get(acc, k)
    case None => PutDistinct(acc, k, x);
    case Some(v) => PutDistinct(acc, k, Plus(v, x));
  }

  lemma {:induction false} AddScoresDistinct(acc: Dict, items: Dict, w: real)
    requires DistinctKeys(acc)
    ensures DistinctKeys(AddScores(acc, items, w))
    decreases |items|
  {
    if items != [] {
      var k := items[0].0;
      AddScoreDistinct(acc, k, Times(items[0].1, w));
      AddScoresDistinct(AddScore(acc, k, Times(items[0].1, w)), items[1..], w);
    }
  }

  /** Dividing keeps the songs and divides each one's score. */
  lemma {:induction false} DividedGet(d: Dict, n: real, song: string)
    requires n != 0.0
    ensures Keys(Divided(d, n)) == Keys(d)
    ensures Get(Divided(d, n), song) == if song in Keys(d) then Some(Over(GetOr(d, song, 0.0), n)) else None
    decreases |d|
  {
    if d != [] {
      DividedGet(d[1..], n, song);
      assert Divided(d, n)[1..] == Divided(d[1..], n);
      assert Keys(d) == [d[0].0] + Keys(d[1..]);
      assert Keys(Divided(d, n)) == [d[0].0] + Keys(Divided(d[1..], n));
    }
  }

  /** With the same weight `c` for every recommender, Σ score × weight is `c` × Σ score. */
  lemma {:induction false} ContributionConstant(sugg: Suggestions, w: seq<real>, c: real, song: string)
    requires |w| == |sugg| && forall i :: 0 <= i < |w| ==> w[i] == c
    ensures Contribution(sugg, w, song) == Times(ScoreSum(sugg, song), c)
    decreases |sugg|
  {
    if sugg != [] {
      ContributionConstant(sugg[1..], w[1..], c, song);
    }
  }

  /** Dividing a total whose score for `song` is `p + t × (1 / k)` by `k`; `present` says
      whether the total holds the song. */
  lemma DividedScore(acc: Dict, k: real, song: string, p: real, t: real, present: bool)
    requires k != 0.0
    requires song in Keys(acc) <==> present
    requires present ==> GetOr(acc, song, 0.0) == p + Times(t, 1.0 / k)
    ensures Get(Divided(acc, k), song) == if present then Some(Over(p + Times(t, 1.0 / k), k)) else None
  {
    DividedGet(acc, k, song);
  }

  /** The total before the division, with the uniform weights `1 / k`. */
  lemma UniformTotal(prev: Dict, sugg: Suggestions, song: string)
    requires |sugg| > 0 && AllDicts(sugg)
    ensures var acc := Accumulate(prev, sugg, Uniform(|sugg|));
      (song in Keys(acc) <==> song in Keys(prev) || Proposed(sugg, song))
      && GetOr(acc, song, 0.0) == GetOr(prev, song, 0.0) + Times(ScoreSum(sugg, song), 1.0 / |sugg| as real)
  {
    var w := Uniform(|sugg|);
    AccumulateKeys(prev, sugg, w, song);
    AccumulateGet(prev, sugg, w, song);
    ContributionConstant(sugg, w, 1.0 / |sugg| as real, song);
  }

  /** A song's score after a call in which `k > 0` recommenders ran:
      (its earlier score + Σ score / k) / k, where a recommender that does not propose it
      adds 0; the songs are the earlier ones and those some recommender proposed. */
  lemma {:induction false} EnsembleScore(prev: Dict, sugg: Suggestions, song: string)
    requires |sugg| > 0 && AllDicts(sugg)
    ensures var k := |sugg| as real;
      Get(Ensemble(prev, sugg), song) ==
        if song in Keys(prev) || Proposed(sugg, song)
        then Some(Over(GetOr(prev, song, 0.0) + Times(ScoreSum(sugg, song), 1.0 / k), k))
        else None
  {
    var k := |sugg| as real;
    var acc := Accumulate(prev, sugg, Uniform(|sugg|));
    assert Ensemble(prev, sugg) == Divided(acc, k);
    UniformTotal(prev, sugg, song);
    DividedScore(acc, k, song, GetOr(prev, song, 0.0), ScoreSum(sugg, song), song in Keys(prev) || Proposed(sugg, song));
  }

  /** `sorted(d.items(), key=score, reverse=True)[:n]`: non-increasing scores, at most `n`
      songs, each taken from `d`, and no song left out scores higher than one kept. */
  lemma TopN<K>(d: seq<(K, real)>, n: int)
    ensures var r := Take(SortByScoreDesc(d), n);
      SortedDesc(r)
      && (n >= 0 ==> |r| == if n < |d| then n else |d|)
      && (forall x :: x in r ==> x in d)
      && (forall x, y :: x in d && x !in r && y in r ==> y.1 >= x.1)
  {
    var s := SortByScoreDesc(d);
    var r := Take(s, n);
    SortByScoreDescFacts(d);
    assert r == s[..|r|];
    forall x | x in r ensures x in d {
      assert x in multiset(s);
    }
    forall x, y | x in d && x !in r && y in r ensures y.1 >= x.1 {
      assert x in multiset(s);
      var j :| 0 <= j < |s| && s[j] == x;
      var i :| 0 <= i < |r| && r[i] == y;
    }
  }

  /** The running dict, once merged, sorted and cut, is still a dict. */
  lemma RankedDistinct(prev: Dict, sugg: Suggestions, n: int)
    requires |sugg| > 0 || prev == []
    requires DistinctKeys(prev)
    ensures DistinctKeys(Take(SortByScoreDesc(Ensemble(prev, sugg)), n))
  {
    var k := |sugg| as real;
    var acc := Accumulate(prev, sugg, Uniform(|sugg|));
    AccumulateDistinct(prev, sugg, Uniform(|sugg|));
    var e := Divided(acc, k);
    assert DistinctKeys(e) by {
      forall a, b | 0 <= a < b < |e| ensures e[a].0 != e[b].0 {
        assert e[a].0 == acc[a].0 && e[b].0 == acc[b].0;
      }
    }
    SortDistinct(e);
    var s := SortByScoreDesc(e);
    var r := Take(s, n);
    assert r == s[..|r|];
  }

  /** Storing one more result. */
  lemma RecordedStep(m: map<string, Dict>, ran: seq<string>, results: Outputs, name: string)
    ensures Recorded(m, ran + [name], results) == Recorded(m, ran, results)[name := Output(results, name)]
  {
    var a := Recorded(m, ran + [name], results);
    var b := Recorded(m, ran, results)[name := Output(results, name)];
    assert a.Keys == b.Keys;
    forall x | x in a ensures a[x] == b[x] {
      if x != name && x !in ran {
        assert x !in ran + [name];
      }
    }
  }

  /** `rs_suggestions` in run order: every recommender once, each with its result. */
  lemma {:induction false} SuggestedKeys(sel: seq<string>, results: Outputs)
    ensures Keys(Suggested(sel, results)) == sel
    decreases |sel|
  {
    if sel != [] {
      var init := sel[..|sel| - 1];
      SuggestedKeys(init, results);
      var s := Suggested(sel, results);
      forall i | 0 <= i < |sel| ensures Keys(s)[i] == sel[i] {
        if i < |sel| - 1 {
          assert s[i] == Suggested(init, results)[i];
          assert Keys(Suggested(init, results))[i] == init[i];
        }
      }
    }
  }

  /** The suggestions of dict-valued outputs are all dicts. */
  lemma {:induction false} SuggestedDicts(sel: seq<string>, results: Outputs)
    requires OutputsAreDicts(results)
    ensures AllDicts(Suggested(sel, results))
    decreases |sel|
  {
    if sel != [] {
      var init := sel[..|sel| - 1];
      SuggestedDicts(init, results);
      var s := Suggested(sel, results);
      forall i | 0 <= i < |s| ensures DistinctKeys(s[i].1) {
        if i < |s| - 1 {
          assert s[i] == Suggested(init, results)[i];
        }
      }
    }
  }

  /** The suggestion a guarded run adds. */
  function Ran(go: bool, name: string, results: Outputs): Suggestions
  {
    if go then [(name, Output(results, name))] else []
  }

  /** The recordings after a guarded run. */
  function Recording(m: map<string, Dict>, go: bool, name: string, results: Outputs): map<string, Dict>
  {
    if go then m[name := Output(results, name)] else m
  }

  /** A guarded run extends the suggestions and recordings of the runs before it. */
  lemma RunStep(m: map<string, Dict>, ran: seq<string>, go: bool, name: string, results: Outputs)
    requires name !in ran
    ensures name !in Keys(Suggested(ran, results))
    ensures Suggested(ran + Gate(go, name), results) == Suggested(ran, results) + Ran(go, name, results)
    ensures Recorded(m, ran + Gate(go, name), results) == Recording(Recorded(m, ran, results), go, name, results)
  {
    SuggestedKeys(ran, results);
    if go {
      RecordedStep(m, ran, results, name);
      assert (ran + [name])[..|ran|] == ran;
    } else {
      assert ran + Gate(go, name) == ran;
    }
  }

  /** The first `i` items of `d` divided by `n`, the others untouched. */
  predicate DividedUpTo(cur: Dict, d: Dict, i: nat, n: real)
  {
    |cur| == |d| && i <= |d| && (i > 0 ==> n != 0.0)
    && forall j :: 0 <= j < |d| ==> cur[j] == if j < i then (d[j].0, Over(d[j].1, n)) else d[j]
  }

  /** One step of the division loop divides item `i` in place. */
  lemma DivideStep(cur: Dict, d: Dict, i: nat, n: real)
    requires n != 0.0 && DistinctKeys(d) && i < |d| && DividedUpTo(cur, d, i, n)
    ensures DividedUpTo(Put(cur, d[i].0, Over(GetOr(cur, d[i].0, 0.0), n)), d, i + 1, n)
  {
    forall a, b | 0 <= a < b < |cur| ensures cur[a].0 != cur[b].0 {
      assert cur[a].0 == d[a].0 && cur[b].0 == d[b].0;
    }
    assert cur[i] == d[i];
    GetAt(cur, i);
    PutAt(cur, i, Over(d[i].1, n));
  }

  lemma DividedAll(cur: Dict, d: Dict, n: real)
    requires (n != 0.0 || d == []) && DividedUpTo(cur, d, |d|, n)
    ensures cur == Divided(d, n)
  {
  }

  /** The first `k` guarded steps of `recommend_songs`: those of the first `k` recommenders
      of `Order` that are active and have the arguments they need. */
  function Runs(active: seq<string>, user: Option<string>, song: Option<string>, columns: Option<seq<string>>,
                k: nat): seq<string>
    requires k <= |Order|
  {
    if k == 0 then []
    else
      var name := Order[k - 1];
      Runs(active, user, song, columns, k - 1) + Gate(name in active && Given(name, user, song, columns), name)
  }

  /** The rank of the `i`-th recommender of `Order` is `i`. */
  lemma OrderRank(i: nat)
    requires i < |Order|
    ensures Rank(Order[i]) == i
  {
    assert "UserBasedRS"[0] != "CoolStartRS"[0];
  }

  /** A guarded step keeps every name below the rank after its own. */
  lemma BelowGate(names: seq<string>, go: bool, name: string)
    requires Below(names, Rank(name))
    ensures Below(names + Gate(go, name), Rank(name) + 1)
  {
  }

  /** A recommender is not among the steps before its own. */
  lemma {:induction false} RunsBelow(active: seq<string>, user: Option<string>, song: Option<string>,
                                     columns: Option<seq<string>>, k: nat)
    requires k <= |Order|
    ensures Below(Runs(active, user, song, columns, k), k)
    ensures k < |Order| ==> Order[k] !in Runs(active, user, song, columns, k)
  {
    if k > 0 {
      RunsBelow(active, user, song, columns, k - 1);
      var name := Order[k - 1];
      OrderRank(k - 1);
      BelowGate(Runs(active, user, song, columns, k - 1), name in active && Given(name, user, song, columns), name);
    }
    if k < |Order| {
      OrderRank(k);
    }
  }

  /** All four steps select exactly `Selected`. */
  lemma SelectedRuns(active: seq<string>, user: Option<string>, song: Option<string>, columns: Option<seq<string>>)
    ensures Selected(active, user, song, columns) == Runs(active, user, song, columns, |Order|)
  {
    assert "UserBasedRS"[0] != "CoolStartRS"[0];
    var a := "CoolStartRS" in active && user.Some? && song.Some?;
    var b := "RelevanceBasedRS" in active && columns.Some?;
    var c := "WeightedMFBasedRS" in active;
    var d := "UserBasedRS" in active && song.Some?;
    assert Runs(active, user, song, columns, 0) == [];
    assert Runs(active, user, song, columns, 1) == Gate(a, "CoolStartRS");
    assert Runs(active, user, song, columns, 2) == Gate(a, "CoolStartRS") + Gate(b, "RelevanceBasedRS");
    assert Runs(active, user, song, columns, 3) == Gate(a, "CoolStartRS") + Gate(b, "RelevanceBasedRS") + Gate(c, "WeightedMFBasedRS");
    assert Runs(active, user, song, columns, |Order|) == Runs(active, user, song, columns, 3) + Gate(d, "UserBasedRS");
    assert Selected(active, user, song, columns) == Gate(a, "CoolStartRS") + Gate(b, "RelevanceBasedRS")
      + Gate(c, "WeightedMFBasedRS") + Gate(d, "UserBasedRS");
  }

  /** The activation steps of `refresh`: one guarded append per recommender, in order. */
  method Activate(db: Tables) returns (active: seq<string>)
    requires Wide(db)
    ensures active == Active(db)
  {
    active := [];
    if Exist(db, "SONGS") && Exist(db, "HISTORY") {
      active := active + ["CoolStartRS"];
    }
    assert active == Gate(Exist(db, "SONGS") && Exist(db, "HISTORY"), "CoolStartRS");
    if Exist(db, "SONGS") {
      active := active + ["RelevanceBasedRS"];
    }
    assert active == Gate(Exist(db, "SONGS") && Exist(db, "HISTORY"), "CoolStartRS")
      + Gate(Exist(db, "SONGS"), "RelevanceBasedRS");
    if Exist(db, "RATINGS") && Exist(db, "RATINGS") {
      active := active + ["WeightedMFBasedRS"];
    }
    assert active == Gate(Exist(db, "SONGS") && Exist(db, "HISTORY"), "CoolStartRS")
      + Gate(Exist(db, "SONGS"), "RelevanceBasedRS") + Gate(Exist(db, "RATINGS") && Exist(db, "RATINGS"), "WeightedMFBasedRS");
    if Exist(db, "SONGS") && Exist(db, "HISTORY") {
      active := active + ["UserBasedRS"];
    }
  }

  class MusicRSHandler {
    var recSongs: Dict
    var recommenders: Option<seq<string>>
    var recommendations: Option<map<string, Dict>>
    var rsWeighter: RSWeighter?

    /** Once refreshed, the handler has its result store and its weighter; the running
        dict is always a dict. */
    predicate Valid()
      reads this
    {
      (recommenders.Some? ==> recommendations.Some? && rsWeighter != null)
      && DistinctKeys(recSongs)
    }

    /** `__init__`: nothing is activated until `refresh` runs. */
    constructor()
      ensures Valid()
      ensures recSongs == [] && recommenders == None && recommendations == None && rsWeighter == null
    {
      recSongs := [];
      recommenders := None;
      recommendations := None;
      rsWeighter := null;
    }

    /** `refresh`: activate the recommenders whose tables hold data, forget every stored
        result and start a new weighter; the running dict is kept. */
    method Refresh(db: Tables)
      requires Wide(db) && Valid()
      modifies this
      ensures Valid()
      ensures recommenders == Some(Active(db)) && recommendations == Some(map[])
      ensures rsWeighter != null && fresh(rsWeighter)
      ensures rsWeighter.recommenders == None && rsWeighter.listenedSongId == None
      ensures recSongs == old(recSongs)
    {
      var active := Activate(db);
      recommenders := Some(active);
      recommendations := Some(map[]);
      rsWeighter := new RSWeighter();
    }

    /** `execute_recommender`: store the recommender's result under its name, add it to the
        suggestions and count the recommender. */
    method ExecuteRecommender(name: string, suggestions: Suggestions, count: nat, result: Dict)
      returns (suggestions': Suggestions, count': nat)
      requires recommendations.Some?
      modifies this
      ensures recommendations == Some(old(recommendations).value[name := result])
      ensures suggestions' == Put(suggestions, name, result) && count' == count + 1
      ensures recSongs == old(recSongs) && recommenders == old(recommenders) && rsWeighter == old(rsWeighter)
    {
      recommendations := Some(recommendations.value[name := result]);
      suggestions' := Put(suggestions, name, result);
      count' := count + 1;
    }

    /** One recommender's songs added into the running dict with weight `w`. */
    method AddItems(items: Dict, w: real)
      modifies this
      ensures recSongs == AddScores(old(recSongs), items, w)
      ensures recommenders == old(recommenders) && recommendations == old(recommendations) && rsWeighter == old(rsWeighter)
    {
      for j := 0 to |items|
        invariant AddScores(recSongs, items[j..], w) == AddScores(old(recSongs), items, w)
        invariant recommenders == old(recommenders) && recommendations == old(recommendations) && rsWeighter == old(rsWeighter)
      {
        var (song, score) := items[j];
        assert items[j..][1..] == items[j + 1..];
        recSongs := AddScore(recSongs, song, Times(score, w));
      }
      assert items[|items|..] == [];
    }

    /** The weighted-sum loop over the recommenders that ran. */
    method AddAll(sugg: Suggestions, w: seq<real>)
      requires |w| == |sugg|
      modifies this
      ensures recSongs == Accumulate(old(recSongs), sugg, w)
      ensures recommenders == old(recommenders) && recommendations == old(recommendations) && rsWeighter == old(rsWeighter)
    {
      for idx := 0 to |sugg|
        invariant Accumulate(recSongs, sugg[idx..], w[idx..]) == Accumulate(old(recSongs), sugg, w)
        invariant recommenders == old(recommenders) && recommendations == old(recommendations) && rsWeighter == old(rsWeighter)
      {
        assert sugg[idx..][1..] == sugg[idx + 1..] && w[idx..][1..] == w[idx + 1..];
        AddItems(sugg[idx].1, w[idx]);
      }
      assert sugg[|sugg|..] == [] && w[|w|..] == [];
    }

    /** The division loop: every song's score divided by `count`, key by key; with no
        recommender it fails on the first song (`ZeroDivisionError`) and changes nothing. */
    method DivideAll(count: nat) returns (failed: bool)
      requires DistinctKeys(recSongs)
      modifies this
      ensures failed <==> count == 0 && old(recSongs) != []
      ensures failed ==> recSongs == old(recSongs)
      ensures !failed ==> recSongs == Divided(old(recSongs), count as real)
      ensures recommenders == old(recommenders) && recommendations == old(recommendations) && rsWeighter == old(rsWeighter)
    {
      var keys := Keys(recSongs);
      ghost var d := recSongs;
      for i := 0 to |keys|
        invariant count == 0 ==> i == 0
        invariant DistinctKeys(d) && DividedUpTo(recSongs, d, i, count as real)
        invariant recommenders == old(recommenders) && recommendations == old(recommendations) && rsWeighter == old(rsWeighter)
      {
        if count == 0 {
          assert recSongs == d;
          return true;
        }
        assert keys[i] == d[i].0;
        DivideStep(recSongs, d, i, count as real);
        recSongs := Put(recSongs, keys[i], Over(GetOr(recSongs, keys[i], 0.0), count as real));
      }
      failed := false;
      DividedAll(recSongs, d, count as real);
    }

    /** One guarded `execute_recommender` call of `recommend_songs`: the `k`-th recommender of
        `Order` runs when it is active and has its arguments. */
    method RunIf(k: nat, active: seq<string>, user: Option<string>, song: Option<string>,
                 columns: Option<seq<string>>, results: Outputs, suggestions: Suggestions, count: nat,
                 ghost m0: map<string, Dict>)
      returns (suggestions': Suggestions, count': nat)
      requires k < |Order|
      requires var ran := Runs(active, user, song, columns, k);
        count == |ran| && suggestions == Suggested(ran, results) && recommendations == Some(Recorded(m0, ran, results))
      modifies this
      ensures var ran := Runs(active, user, song, columns, k + 1);
        count' == |ran| && suggestions' == Suggested(ran, results) && recommendations == Some(Recorded(m0, ran, results))
      ensures recSongs == old(recSongs) && recommenders == old(recommenders) && rsWeighter == old(rsWeighter)
    {
      var name := Order[k];
      var go := name in active && Given(name, user, song, columns);
      RunsBelow(active, user, song, columns, k);
      RunStep(m0, Runs(active, user, song, columns, k), go, name, results);
      suggestions', count' := suggestions, count;
      if go {
        PutNew(suggestions, name, Output(results, name));
        suggestions', count' := ExecuteRecommender(name, suggestions, count, Output(results, name));
      }
    }

    /** The four guarded runs of `recommend_songs`, one per recommender of `Order`, in order. */
    method RunRecommenders(user: Option<string>, song: Option<string>, columns: Option<seq<string>>,
                           results: Outputs)
      returns (suggestions: Suggestions, count: nat)
      requires recommenders.Some? && recommendations.Some?
      modifies this
      ensures recSongs == old(recSongs) && recommenders == old(recommenders) && rsWeighter == old(rsWeighter)
      ensures var sel := Runs(recommenders.value, user, song, columns, |Order|);
        suggestions == Suggested(sel, results) && count == |sel|
        && recommendations == Some(Recorded(old(recommendations).value, sel, results))
    {
      var active := recommenders.value;
      ghost var m0 := recommendations.value;
      assert Runs(active, user, song, columns, 0) == [] && Recorded(m0, [], results) == m0;
      suggestions, count := [], 0;
      for k := 0 to |Order|
        invariant var ran := Runs(active, user, song, columns, k);
          count == |ran| && suggestions == Suggested(ran, results) && recommendations == Some(Recorded(m0, ran, results))
        invariant recSongs == old(recSongs) && recommenders == old(recommenders) && rsWeighter == old(rsWeighter)
      {
        suggestions, count := RunIf(k, active, user, song, columns, results, suggestions, count, m0);
      }
    }

    /** `recommend_songs`: run the selected recommenders, weigh them uniformly, add the
        weighted scores into the running dict, divide by the number that ran and keep the
        `n` best songs. Before `refresh` the membership test fails with a `TypeError`. */
    method RecommendSongs(user: Option<string>, song: Option<string>, columns: Option<seq<string>>, n: int,
                          results: Outputs)
      returns (r: Result<Dict, Error>)
      requires Valid()
      requires OutputsAreDicts(results)
      modifies this, rsWeighter
      ensures Valid()
      ensures old(recommenders).None? ==>
        r == Err(TypeError) && recSongs == old(recSongs) && recommendations == old(recommendations)
      ensures old(recommenders).Some? ==>
        var sel := Selected(old(recommenders).value, user, song, columns);
        var sugg := Suggested(sel, results);
        recommenders == old(recommenders) && rsWeighter == old(rsWeighter) && rsWeighter != null
        && rsWeighter.recommenders == Some(sugg) && rsWeighter.listenedSongId == old(rsWeighter.listenedSongId)
        && recommendations == Some(Recorded(old(recommendations).value, sel, results))
        && (if sel == [] && old(recSongs) != []
            then r == Err(ZeroDivisionError) && recSongs == old(recSongs)
            else r == Ok(recSongs) && recSongs == Take(SortByScoreDesc(Ensemble(old(recSongs), sugg)), n))
    {
      if recommenders.None? {
        return Err(TypeError);
      }
      var suggestions, count := RunRecommenders(user, song, columns, results);
      SelectedRuns(recommenders.value, user, song, columns);
      SuggestedDicts(Selected(recommenders.value, user, song, columns), results);
      r := Combine(suggestions, count, n);
    }

    /** The second half of `recommend_songs`: hand the suggestions to the weighter, add the
        uniformly weighted scores into the running dict, divide by `count` and keep the `n`
        best songs. */
    method Combine(suggestions: Suggestions, count: nat, n: int) returns (r: Result<Dict, Error>)
      requires DistinctKeys(recSongs) && rsWeighter != null
      requires AllDicts(suggestions) && count == |suggestions|
      modifies this, rsWeighter
      ensures DistinctKeys(recSongs)
      ensures recommenders == old(recommenders) && recommendations == old(recommendations) && rsWeighter == old(rsWeighter)
      ensures rsWeighter.recommenders == Some(suggestions) && rsWeighter.listenedSongId == old(rsWeighter.listenedSongId)
      ensures if suggestions == [] && old(recSongs) != []
        then r == Err(ZeroDivisionError) && recSongs == old(recSongs)
        else r == Ok(recSongs) && recSongs == Take(SortByScoreDesc(Ensemble(old(recSongs), suggestions)), n)
    {
      rsWeighter.Set(Some(suggestions), None);
      var weights := rsWeighter.UniformWeight();
      var w := weights.value;
      assert w == Uniform(count);
      ghost var prev := recSongs;
      AccumulateDistinct(prev, suggestions, w);
      AddAll(suggestions, w);
      var failed := DivideAll(count);
      if failed {
        assert suggestions == [];
        return Err(ZeroDivisionError);
      }
      assert recSongs == Ensemble(prev, suggestions);
      RankedDistinct(prev, suggestions, n);
      recSongs := Take(SortByScoreDesc(recSongs), n);
      r := Ok(recSongs);
    }

    /** `listened_song_by_user`: the weighter stores the song; before `refresh` there is no
        weighter (`AttributeError`). */
    method ListenedSongByUser(song: Option<string>) returns (r: Result<(), Error>)
      modifies rsWeighter
      ensures r.Err? <==> rsWeighter == null
      ensures r.Err? ==> r.error == AttributeError
      ensures r.Ok? ==> rsWeighter.recommenders == old(rsWeighter.recommenders)
      ensures r.Ok? ==> rsWeighter.listenedSongId == if song.Some? then song else old(rsWeighter.listenedSongId)
    {
      if rsWeighter == null {
        return Err(AttributeError);
      }
      rsWeighter.Set(None, song);
      r := Ok(());
    }

    /** The accessors `cool_recommended`, `relevance_recommended`, `wmf_recommended` and
        `user_based_recommended`: the named recommender's last stored result, or `{}` when
        it has none; before `refresh` there is no store (`AttributeError`). */
    function Recommended(name: string): (r: Result<Dict, Error>)
      reads this
      ensures recommendations.None? <==> r == Err(AttributeError)
      ensures recommendations.Some? && name !in recommendations.value ==> r == Ok([])
      ensures recommendations.Some? && name in recommendations.value ==> r == Ok(recommendations.value[name])
    {
      match recommendations
      case None => Err(AttributeError)
      case Some(m) => Ok(if name in m then m[name] else [])
    }
  }

  /** After a call, each selected recommender's result is what its accessor returns. */
  lemma AccessorAfterRun(h: MusicRSHandler, m: map<string, Dict>, sel: seq<string>, results: Outputs, name: string)
    requires h.recommendations == Some(Recorded(m, sel, results)) && name in sel
    ensures h.Recommended(name) == Ok(Output(results, name))
  {
  }
}
