/**
 * The unsorted-preslice grouping benchmark, timing aside: a data frame
 * counter, a counter of reported filled data frames, and the sizes of the
 * last data frame that had collisions, reported when an empty data frame
 * follows the first one.
 */
module GroupingPresliceUnsorted {

  /** A weighted fill of a one-dimensional histogram. */
  datatype WeightedFill = WeightedFill(x: int, weight: int)

  /** The counters of the benchmark between two data frames. */
  datatype DfState = DfState(atDF: int, atFilledDF: int, collisionsThisDF: int, v0sThisDF: int)

  /** The counters of a task that has seen no data frame (the task object is value-initialised). */
  const InitialState := DfState(0, 0, 0, 0)

  /** Whether the call reports the last filled data frame: not the first call, and an empty data frame. */
  predicate Reports(s: DfState, nCollisions: nat)
  {
    s.atDF > 0 && nCollisions == 0
  }

  /** The counters after one data frame. */
  function Step(s: DfState, nCollisions: nat, nV0s: nat): (t: DfState)
    ensures t.atDF == s.atDF + 1
    ensures t.atFilledDF == s.atFilledDF + (if Reports(s, nCollisions) then 1 else 0)
    ensures nCollisions > 0 ==> t.collisionsThisDF == nCollisions && t.v0sThisDF == nV0s
    ensures nCollisions == 0 ==> t.collisionsThisDF == s.collisionsThisDF && t.v0sThisDF == s.v0sThisDF
  {
    var kept := if nCollisions > 0 then s.(collisionsThisDF := nCollisions, v0sThisDF := nV0s) else s;
    var marked := if Reports(s, nCollisions) then kept.(atFilledDF := kept.atFilledDF + 1) else kept;
    marked.(atDF := marked.atDF + 1)
  }

  /**
   * The invariant of the counters: no data frame reported before the first
   * call, and after it strictly fewer reports than calls.
   */
  predicate Counters(s: DfState)
  {
    s.atFilledDF >= 0 && (s.atFilledDF < s.atDF || (s.atDF == 0 && s.atFilledDF == 0))
  }

  lemma StepKeepsCounters(s: DfState, nCollisions: nat, nV0s: nat)
    requires Counters(s)
    ensures Counters(Step(s, nCollisions, nV0s))
    ensures Step(s, nCollisions, nV0s).atFilledDF <= Step(s, nCollisions, nV0s).atDF
  {
  }

  /** A data frame of the benchmark: numbers of collisions and of V0s. */
  datatype DataFrame = DataFrame(nCollisions: nat, nV0s: nat)

  /** The counters after a sequence of data frames. */
  function Run(dfs: seq<DataFrame>): DfState
  {
    if |dfs| == 0 then InitialState
    else
      var last := dfs[|dfs| - 1];
      Step(Run(dfs[..|dfs| - 1]), last.nCollisions, last.nV0s)
  }

  /** Empty data frames after the first one. */
  function EmptyAfterFirst(dfs: seq<DataFrame>): nat
  {
    if |dfs| <= 1 then 0
    else EmptyAfterFirst(dfs[..|dfs| - 1]) + (if dfs[|dfs| - 1].nCollisions == 0 then 1 else 0)
  }

  /**
   * After any sequence of data frames: one call counted per data frame, one
   * report per empty data frame other than the first, and the report count
   * below the call count.
   */
  lemma {:induction false} RunCounts(dfs: seq<DataFrame>)
    ensures Run(dfs).atDF == |dfs|
    ensures Run(dfs).atFilledDF == EmptyAfterFirst(dfs)
    ensures Counters(Run(dfs))
  {
    if |dfs| > 0 {
      var n := |dfs| - 1;
      RunCounts(dfs[..n]);
      StepKeepsCounters(Run(dfs[..n]), dfs[n].nCollisions, dfs[n].nV0s);
      if n == 0 {
        assert Run(dfs[..n]) == InitialState;
      }
    }
  }

  /** Two empty data frames after a filled one both report that filled data frame's sizes. */
  lemma RepeatedReport()
    ensures var s := Run([DataFrame(3, 7)]);
            Run([DataFrame(3, 7), DataFrame(0, 0), DataFrame(0, 0)]).atFilledDF == 2
            && Reports(s, 0) && Step(s, 0, 0).collisionsThisDF == 3 && Step(s, 0, 0).v0sThisDF == 7
  {
    assert [DataFrame(3, 7), DataFrame(0, 0), DataFrame(0, 0)][..2] == [DataFrame(3, 7), DataFrame(0, 0)];
    assert [DataFrame(3, 7), DataFrame(0, 0)][..1] == [DataFrame(3, 7)];
    assert [DataFrame(3, 7)][..0] == [];
  }

  class Benchmark {
    var atDF: int
    var atFilledDF: int
    var collisionsThisDF: int
    var v0sThisDF: int
    var hCollisionsVsDF: seq<WeightedFill>
    var hV0sVsDF: seq<WeightedFill>

    function State(): DfState
      reads this
    {
      DfState(atDF, atFilledDF, collisionsThisDF, v0sThisDF)
    }

    constructor ()
      ensures State() == InitialState && hCollisionsVsDF == [] && hV0sVsDF == []
    {
      atDF := 0;
      atFilledDF := 0;
      collisionsThisDF := 0;
      v0sThisDF := 0;
      hCollisionsVsDF := [];
      hV0sVsDF := [];
    }

    /**
     * `process`: the sizes of a data frame with collisions are kept; an
     * empty data frame after the first call reports the kept sizes at bin
     * `atFilledDF`, which then advances; `atDF` advances on every call.
     */
    method Process(nCollisions: nat, nV0s: nat)
      requires Counters(State())
      modifies this
      ensures Counters(State())
      ensures State() == Step(old(State()), nCollisions, nV0s)
      ensures hCollisionsVsDF == old(hCollisionsVsDF)
                + (if Reports(old(State()), nCollisions) then [WeightedFill(old(atFilledDF), old(collisionsThisDF))] else [])
      ensures hV0sVsDF == old(hV0sVsDF)
                + (if Reports(old(State()), nCollisions) then [WeightedFill(old(atFilledDF), old(v0sThisDF))] else [])
    {
      StepKeepsCounters(State(), nCollisions, nV0s);
      if nCollisions > 0 {
        collisionsThisDF := nCollisions;
        v0sThisDF := nV0s;
      }
      if atDF > 0 && nCollisions == 0 {
        hCollisionsVsDF := hCollisionsVsDF + [WeightedFill(atFilledDF, collisionsThisDF)];
        hV0sVsDF := hV0sVsDF + [WeightedFill(atFilledDF, v0sThisDF)];
        atFilledDF := atFilledDF + 1;
      }
      atDF := atDF + 1;
    }
  }
}
