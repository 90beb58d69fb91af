/** ParticleNet top-tagging scale factors as tabulated in the per-event C++ modules (and, with the
    same numbers, in the top scale-factor handler).  The entries are indexed [variation][pT bin]:
    variation 0 nominal, 1 up, 2 down; the pT bins are [low, 400), [400, 480), [480, 600) and
    [600, 1200), where `low` is 350 GeV in the all-hadronic module (TTmodules.cc) and 300 GeV in the
    semileptonic module, the original all-hadronic module and the handler. */
module TopScaleFactors {
  import opened Wrappers
  import opened Eras

  /** High-purity (tight working point) scale factors. */
  function TightTable(e: Era): (t: seq<seq<real>>)
    ensures IsGrid(t, 3, 4)
  {
    match e
    case Era2016APV => [[1.10, 1.06, 1.04, 1.00], [1.18, 1.13, 1.11, 1.21], [1.03, 1.00, 0.98, 0.91]]
    case Era2016    => [[0.97, 0.91, 0.99, 1.00], [1.07, 0.96, 1.05, 1.09], [0.89, 0.86, 0.94, 0.92]]
    case Era2017    => [[1.12, 0.96, 1.00, 0.93], [1.24, 1.01, 1.05, 0.98], [1.02, 0.92, 0.95, 0.87]]
    case Era2018    => [[1.03, 0.95, 0.91, 0.95], [1.12, 1.00, 0.95, 1.02], [0.95, 0.90, 0.88, 0.90]]
  }

  /** Medium-purity (loose working point) scale factors. */
  function LooseTable(e: Era): (t: seq<seq<real>>)
    ensures IsGrid(t, 3, 4)
  {
    match e
    case Era2016APV => [[1.23, 1.07, 1.04, 1.06], [1.39, 1.17, 1.18, 1.24], [1.09, 1.02, 0.99, 0.96]]
    case Era2016    => [[1.08, 0.99, 1.03, 1.29], [1.19, 1.05, 1.10, 1.54], [0.98, 1.04, 0.98, 1.03]]
    case Era2017    => [[1.11, 1.01, 1.05, 1.00], [1.23, 1.05, 1.14, 1.06], [1.03, 0.97, 1.01, 0.96]]
    case Era2018    => [[1.19, 0.98, 0.96, 0.97], [1.31, 1.02, 1.00, 1.02], [1.07, 0.94, 0.93, 0.92]]
  }

  /** Every tabulated top scale factor lies in [0.86, 1.54]: positive, and never below the 0.7
      that the semileptonic module reports as suspicious. */
  lemma TablesInRange(e: Era, v: nat, k: nat)
    requires v < 3 && k < 4
    ensures 0.86 <= TightTable(e)[v][k] <= 1.54 && 0.86 <= LooseTable(e)[v][k] <= 1.54
  {
  }

  /** Lower edge of pT bin `k` (of 4), given the lower edge of the first bin. */
  function BinLow(k: nat, low: real): real
    requires k < 4
  {
    [low, 400.0, 480.0, 600.0][k]
  }

  function BinHigh(k: nat): real
    requires k < 4
  {
    [400.0, 480.0, 600.0, 1200.0][k]
  }

  /** The pT bin of a jet, or None outside [low, 1200), where the scale factor is 1. */
  function PtCat(pt: real, low: real): (c: Option<nat>)
    requires low <= 400.0
    ensures c.Some? <==> low <= pt < 1200.0
    ensures c.Some? ==> c.value < 4 && BinLow(c.value, low) <= pt < BinHigh(c.value)
  {
    if low <= pt < 400.0 then Some(0)
    else if 400.0 <= pt < 480.0 then Some(1)
    else if 480.0 <= pt < 600.0 then Some(2)
    else if 600.0 <= pt < 1200.0 then Some(3)
    else None
  }

  /** The bins are ordered: a harder jet never falls in a lower bin. */
  lemma PtCatMonotone(pt1: real, pt2: real, low: real)
    requires low <= 400.0 && pt1 <= pt2
    requires PtCat(pt1, low).Some? && PtCat(pt2, low).Some?
    ensures PtCat(pt1, low).value <= PtCat(pt2, low).value
  {
  }

  /** `getSF` of the per-event modules, whose `switch` has a `break` in each case: the loose table
      for an originally failing jet (category 0), the tight table for a passing one (category 1),
      and no value (an uninitialised result) for any other category inside the pT range. */
  function GetSF(jetCat: int, pt: real, year: string, variation: int, low: real): (r: Option<real>)
    requires low <= 400.0
    requires PtCat(pt, low).Some? ==> 0 <= variation < 3
    ensures PtCat(pt, low).None? ==> r == Some(1.0)
    ensures PtCat(pt, low).Some? ==> (r.Some? <==> jetCat == 0 || jetCat == 1)
    ensures PtCat(pt, low).Some? && jetCat == 0 ==>
              r == Some(LooseTable(EraOf(year))[variation][PtCat(pt, low).value])
    ensures PtCat(pt, low).Some? && jetCat == 1 ==>
              r == Some(TightTable(EraOf(year))[variation][PtCat(pt, low).value])
  {
    match PtCat(pt, low)
    case None => Some(1.0)
    case Some(k) =>
      if jetCat == 0 then Some(LooseTable(EraOf(year))[variation][k])
      else if jetCat == 1 then Some(TightTable(EraOf(year))[variation][k])
      else None
  }

  /** For the categories `getOriginalTopCat` produces the scale factor is always defined and positive. */
  lemma GetSFDefined(jetCat: int, pt: real, year: string, variation: int, low: real)
    requires low <= 400.0 && (jetCat == 0 || jetCat == 1)
    requires PtCat(pt, low).Some? ==> 0 <= variation < 3
    ensures GetSF(jetCat, pt, year, variation, low).Some?
    ensures GetSF(jetCat, pt, year, variation, low).value > 0.0
  {
    if PtCat(pt, low).Some? {
      TablesInRange(EraOf(year), variation, PtCat(pt, low).value);
    }
  }
}
