/** The data-taking periods that select a scale-factor table, and the shape of those tables. */
module Eras {

  /** The data-taking period selected by the `year` string; anything unrecognised selects 2018. */
  datatype Era = Era2016APV | Era2016 | Era2017 | Era2018

  function EraOf(year: string): (e: Era)
    ensures e == Era2016APV <==> year == "2016APV"
    ensures e == Era2016 <==> year == "2016"
    ensures e == Era2017 <==> year == "2017"
  {
    if year == "2016APV" then Era2016APV
    else if year == "2016" then Era2016
    else if year == "2017" then Era2017
    else Era2018
  }

  /** A table with `rows` rows of `cols` entries each. */
  predicate IsGrid(t: seq<seq<real>>, rows: nat, cols: nat)
  {
    |t| == rows && forall i :: 0 <= i < rows ==> |t[i]| == cols
  }
}
