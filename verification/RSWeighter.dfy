/** The weighter of the ensemble: it holds the recommenders' suggestions and the song the
    user last listened to, and gives every recommender the same weight. */
module RSWeighter {
  import opened Wrappers
  import opened Errors

  /** A recommender's result: song ids with scores, in dict order. */
  type Dict = seq<(string, real)>

  /** The suggestions of the recommenders that ran, keyed by recommender, in run order. */
  type Suggestions = seq<(string, Dict)>

  /** `[1.0 / n for _ in range(n)]`. */
  function Uniform(n: nat): (w: seq<real>)
    ensures |w| == n && forall i :: 0 <= i < n ==> w[i] == 1.0 / n as real
  {
    seq(n, i requires 0 <= i < n => 1.0 / n as real)
  }

  function Sum(w: seq<real>): real
  {
    if w == [] then 0.0 else Sum(w[..|w| - 1]) + w[|w| - 1]
  }

  lemma {:induction false} SumConstant(w: seq<real>, c: real)
    requires forall i :: 0 <= i < |w| ==> w[i] == c
    ensures Sum(w) == |w| as real * c
    decreases |w|
  {
    if w != [] {
      SumConstant(w[..|w| - 1], c);
    }
  }

  /** Uniform weights over at least one recommender add up to one. */
  lemma UniformSumsToOne(n: nat)
    requires n > 0
    ensures Sum(Uniform(n)) == 1.0
  {
    SumConstant(Uniform(n), 1.0 / n as real);
  }

  class RSWeighter {
    var recommenders: Option<Suggestions>
    var listenedSongId: Option<string>

    constructor()
      ensures recommenders == None && listenedSongId == None
    {
      recommenders := None;
      listenedSongId := None;
    }

    /** `set`: exactly one of the two arguments is stored; with both or neither nothing
        changes (the warning is built but not raised). */
    method Set(suggestions: Option<Suggestions>, listened: Option<string>)
      modifies this
      ensures suggestions.Some? && listened.None? ==> recommenders == suggestions && listenedSongId == old(listenedSongId)
      ensures suggestions.None? && listened.Some? ==> listenedSongId == listened && recommenders == old(recommenders)
      ensures suggestions.Some? == listened.Some? ==> recommenders == old(recommenders) && listenedSongId == old(listenedSongId)
    {
      if suggestions.Some? && listened.None? {
        recommenders := suggestions;
      } else if suggestions.None? && listened.Some? {
        listenedSongId := listened;
      }
    }

    /** `uniform_weight`: one weight `1 / n` per recommender; refused before any `set`. */
    function UniformWeight(): (r: Result<seq<real>, Error>)
      reads this
      ensures recommenders.None? <==> r == Err(RSNotInstantiated)
      ensures r.Ok? ==> |r.value| == |recommenders.value|
      ensures r.Ok? && r.value != [] ==> Sum(r.value) == 1.0
    {
      match recommenders
      case None => Err(RSNotInstantiated)
      case Some(rs) =>
        var w := Uniform(|rs|);
        assert w != [] ==> Sum(w) == 1.0 by {
          if w != [] {
            UniformSumsToOne(|rs|);
          }
        }
        Ok(w)
    }
  }
}
