/**
 * The trigger channel shared by the three programs: `stdin_lines` yields every
 * line `readline` returns until the first empty read, which means end of input.
 */
module StdinLines {

  /**
   * The lines `stdin_lines` yields, given the successive values `readline` returns
   * (`""` is end of input; running out of them is end of input as well).
   */
  function Lines(results: seq<string>): (lines: seq<string>)
    ensures lines <= results
    ensures forall k :: 0 <= k < |lines| ==> lines[k] != ""
    ensures |lines| < |results| ==> results[|lines|] == ""
  {
    if results == [] || results[0] == "" then [] else [results[0]] + Lines(results[1..])
  }

  /** Nothing read after end of input is ever a trigger. */
  lemma {:induction false} LinesIgnoreAfterEof(before: seq<string>, after: seq<string>)
    requires forall k :: 0 <= k < |before| ==> before[k] != ""
    ensures Lines(before + [""] + after) == before
  {
    if before != [] {
      assert (before + [""] + after)[1..] == before[1..] + [""] + after;
      LinesIgnoreAfterEof(before[1..], after);
    }
  }

  /** Reading a non-empty line after `k` triggers means there is a trigger `k + 1`. */
  lemma NextLineIsTrigger(results: seq<string>, k: nat)
    requires k <= |Lines(results)| && k < |results| && results[k] != ""
    ensures k < |Lines(results)|
  {
  }

  /** An empty read or the end of the reads after `k` triggers means there are exactly `k`. */
  lemma EndOfTriggers(results: seq<string>, k: nat)
    requires k <= |Lines(results)| && (k == |results| || (k < |results| && results[k] == ""))
    ensures k == |Lines(results)|
  {
  }
}
