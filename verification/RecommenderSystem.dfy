/** The message every recommender prints: its name, one numbered line per recommended song
    and a closing blank line. Python's rendering of a float score is the parameter `show`. */
module RecommenderSystem {
  import opened Text

  /** The line of the song in position `i`: `"i: song score"`. */
  function Line(i: nat, entry: (string, real), show: real -> string): string
  {
    NatToString(i) + ": " + entry.0 + " " + show(entry.1) + "\n"
  }

  /** The numbered lines of the entries, in order. */
  function Lines(entries: seq<(string, real)>, show: real -> string): string
  {
    if entries == [] then ""
    else Lines(entries[..|entries| - 1], show) + Line(|entries| - 1, entries[|entries| - 1], show)
  }

  /** The lines of one more entry end with that entry's line. */
  lemma LinesStep(entries: seq<(string, real)>, position: nat, show: real -> string)
    requires position < |entries|
    ensures Lines(entries[..position + 1], show) == Lines(entries[..position], show) + Line(position, entries[position], show)
  {
    assert entries[..position + 1][..position] == entries[..position];
  }

  /** `print`: the message built line by line. */
  method Print(name: string, recSongs: seq<(string, real)>, show: real -> string) returns (message: string)
    ensures message == name + "\n" + Lines(recSongs, show) + "\n"
  {
    message := name + "\n";
    ghost var head := message;
    for position := 0 to |recSongs|
      invariant message == head + Lines(recSongs[..position], show)
    {
      LinesStep(recSongs, position, show);
      var line := NatToString(position) + ": " + recSongs[position].0 + " " + show(recSongs[position].1) + "\n";
      message := message + line;
    }
    assert recSongs[..|recSongs|] == recSongs;
    message := message + "\n";
  }

  /** No recommendations print as the name followed by an empty line. */
  lemma EmptyMessage(name: string, show: real -> string)
    ensures name + "\n" + Lines([], show) + "\n" == name + "\n\n"
  {
  }

  /** Text without line breaks. */
  predicate OneLine(s: string) { '\n' !in s }

  /** With no line break in the name, the song ids or the rendered scores, the message has
      exactly one line per song plus the name's line and the closing blank line. */
  lemma {:induction false} MessageLineCount(name: string, entries: seq<(string, real)>, show: real -> string)
    requires OneLine(name)
    requires forall i :: 0 <= i < |entries| ==> OneLine(entries[i].0) && OneLine(show(entries[i].1))
    ensures CountChar('\n', name + "\n" + Lines(entries, show) + "\n") == |entries| + 2
  {
    LinesCount(entries, show);
    CountCharAppend('\n', name + "\n" + Lines(entries, show), "\n");
    CountCharAppend('\n', name + "\n", Lines(entries, show));
    CountCharAppend('\n', name, "\n");
    CountCharAbsent('\n', name);
  }

  lemma {:induction false} LinesCount(entries: seq<(string, real)>, show: real -> string)
    requires forall i :: 0 <= i < |entries| ==> OneLine(entries[i].0) && OneLine(show(entries[i].1))
    ensures CountChar('\n', Lines(entries, show)) == |entries|
    decreases |entries|
  {
    if entries != [] {
      var n := |entries| - 1;
      var init := entries[..n];
      assert forall i :: 0 <= i < |init| ==> init[i] == entries[i];
      LinesCount(init, show);
      var e := entries[n];
      var digits := NatToString(n);
      assert '\n' !in digits;
      CountCharAppend('\n', Lines(init, show), Line(n, e, show));
      CountCharAppend('\n', digits + ": " + e.0 + " " + show(e.1), "\n");
      CountCharAppend('\n', digits + ": " + e.0 + " ", show(e.1));
      CountCharAppend('\n', digits + ": " + e.0, " ");
      CountCharAppend('\n', digits + ": ", e.0);
      CountCharAppend('\n', digits, ": ");
      CountCharAbsent('\n', digits);
      CountCharAbsent('\n', ": ");
      CountCharAbsent('\n', e.0);
      CountCharAbsent('\n', " ");
      CountCharAbsent('\n', show(e.1));
    }
  }
}
