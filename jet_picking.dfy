/** The two loop shapes behind the per-event object pickers: "the first qualifying object, then
    the first later one that also pairs with it", and "the first index of the largest value above
    a floor".  Per-object cuts are passed as predicates on the object index. */
module JetPicking {

  /** The first index in [from, n) satisfying `qual`, or -1 when there is none. */
  function FirstIndex(n: int, qual: int -> bool, from: int): (r: int)
    requires 0 <= from <= n
    ensures r == -1 || from <= r < n
    ensures r == -1 ==> forall k :: from <= k < n ==> !qual(k)
    ensures r != -1 ==> qual(r) && forall k :: from <= k < r ==> !qual(k)
    decreases n - from
  {
    if from == n then -1 else if qual(from) then from else FirstIndex(n, qual, from + 1)
  }

  /** The first qualifying index is unique. */
  lemma FirstIndexUnique(n: int, qual: int -> bool, from: int, r: int)
    requires 0 <= from <= r < n && qual(r) && forall k :: from <= k < r ==> !qual(k)
    ensures FirstIndex(n, qual, from) == r
  {
  }

  /** Qualifies as the second object of a pair whose first object is `j0`. */
  function Partner(qual: int -> bool, pairOk: (int, int) -> bool, j0: int): int -> bool
  {
    k => qual(k) && pairOk(j0, k)
  }

  /** The pair picked by a scan over n objects: the first qualifying object, and the first later
      qualifying object that pairs with it (-1 for a missing slot). */
  function FirstPair(n: nat, qual: int -> bool, pairOk: (int, int) -> bool): (p: (int, int))
    ensures p.0 == -1 ==> p.1 == -1
    ensures p.1 != -1 ==> 0 <= p.0 < p.1 < n
  {
    var j0 := FirstIndex(n, qual, 0);
    if j0 == -1 then (-1, -1) else (j0, FirstIndex(n, Partner(qual, pairOk, j0), j0 + 1))
  }

  /** Predicates that agree on [from, n) pick the same first index. */
  lemma {:induction false} FirstIndexCongruent(n: int, q1: int -> bool, q2: int -> bool, from: int)
    requires 0 <= from <= n
    requires forall k :: from <= k < n ==> q1(k) == q2(k)
    ensures FirstIndex(n, q1, from) == FirstIndex(n, q2, from)
    decreases n - from
  {
    if from < n {
      FirstIndexCongruent(n, q1, q2, from + 1);
    }
  }

  /** Cuts and pairing conditions that agree on the n objects pick the same pair. */
  lemma FirstPairCongruent(n: nat, q1: int -> bool, q2: int -> bool, ok1: (int, int) -> bool, ok2: (int, int) -> bool)
    requires forall k :: 0 <= k < n ==> q1(k) == q2(k)
    requires forall a, b :: 0 <= a < n && 0 <= b < n ==> ok1(a, b) == ok2(a, b)
    ensures FirstPair(n, q1, ok1) == FirstPair(n, q2, ok2)
  {
    FirstIndexCongruent(n, q1, q2, 0);
    var j0 := FirstIndex(n, q1, 0);
    if j0 != -1 {
      assert forall k :: j0 + 1 <= k < n ==> Partner(q1, ok1, j0)(k) == Partner(q2, ok2, j0)(k);
      FirstIndexCongruent(n, Partner(q1, ok1, j0), Partner(q2, ok2, j0), j0 + 1);
    }
  }

  /** The scan of `PickDijets` and `PickDiphotons`: the loop stops once the second slot is filled. */
  method PickFirstPair(n: nat, qual: int -> bool, pairOk: (int, int) -> bool) returns (j0: int, j1: int)
    ensures (j0, j1) == FirstPair(n, qual, pairOk)
  {
    j0, j1 := -1, -1;
    var i := 0;
    while i < n
      invariant 0 <= i <= n
      invariant j1 == -1
      invariant j0 == -1 ==> forall k :: 0 <= k < i ==> !qual(k)
      invariant j0 != -1 ==> 0 <= j0 < i && j0 == FirstIndex(n, qual, 0)
      invariant j0 != -1 ==> forall k :: j0 < k < i ==> !Partner(qual, pairOk, j0)(k)
    {
      if j1 == -1 {
        if qual(i) {
          if j0 == -1 {
            j0 := i;
            FirstIndexUnique(n, qual, 0, i);
          } else if pairOk(j0, i) {
            j1 := i;
            FirstIndexUnique(n, Partner(qual, pairOk, j0), j0 + 1, i);
            return;
          }
        }
      }
      i := i + 1;
    }
  }

  /** The loop of a search that stops at the first qualifying index. */
  method ScanFirst(n: nat, qual: int -> bool) returns (r: int)
    ensures r == FirstIndex(n, qual, 0)
  {
    r := -1;
    var i := 0;
    while i < n
      invariant 0 <= i <= n
      invariant forall k :: 0 <= k < i ==> !qual(k)
    {
      if qual(i) {
        r := i;
        FirstIndexUnique(n, qual, 0, i);
        return;
      }
      i := i + 1;
    }
  }

  /** Row `i` of a two-index condition, as a condition on the column index. */
  function Row(ok: (int, int) -> bool, i: int): int -> bool
  {
    k => ok(i, k)
  }

  /** Row `i` has at least one satisfying column below n2. */
  function RowHit(n2: nat, ok: (int, int) -> bool): int -> bool
  {
    i => FirstIndex(n2, Row(ok, i), 0) != -1
  }

  /** The first (row, column) pair in row-major order on [0, n1) x [0, n2) that satisfies `ok`,
      or (-1, -1). */
  function FirstLexPair(n1: nat, n2: nat, ok: (int, int) -> bool): (p: (int, int))
    ensures p.0 == -1 <==> p.1 == -1
    ensures p.0 == -1 ==> forall i, j :: 0 <= i < n1 && 0 <= j < n2 ==> !ok(i, j)
    ensures p.0 != -1 ==> 0 <= p.0 < n1 && 0 <= p.1 < n2 && ok(p.0, p.1)
    ensures p.0 != -1 ==> forall i, j :: 0 <= i < p.0 && 0 <= j < n2 ==> !ok(i, j)
    ensures p.0 != -1 ==> forall j :: 0 <= j < p.1 ==> !ok(p.0, j)
  {
    var i := FirstIndex(n1, RowHit(n2, ok), 0);
    if i == -1 then
      assert forall i, j :: 0 <= i < n1 && 0 <= j < n2 ==> !ok(i, j) by {
        forall i, j | 0 <= i < n1 && 0 <= j < n2
          ensures !ok(i, j)
        {
          assert !RowHit(n2, ok)(i);
          assert !Row(ok, i)(j);
        }
      }
      (-1, -1)
    else
      assert forall r, j :: 0 <= r < i && 0 <= j < n2 ==> !ok(r, j) by {
        forall r, j | 0 <= r < i && 0 <= j < n2
          ensures !ok(r, j)
        {
          assert !RowHit(n2, ok)(r);
          assert !Row(ok, r)(j);
        }
      }
      var j := FirstIndex(n2, Row(ok, i), 0);
      assert RowHit(n2, ok)(i) && Row(ok, i)(j);
      assert forall k :: 0 <= k < j ==> !ok(i, k) by {
        forall k | 0 <= k < j
          ensures !ok(i, k)
        {
          assert !Row(ok, i)(k);
        }
      }
      (i, j)
  }

  /** The nested loops with an exit flag that find the first pair in row-major order: the inner
      loop breaks at a hit and raises the flag that ends the outer loop. */
  method ScanPairs(n1: nat, n2: nat, ok: (int, int) -> bool) returns (a: int, b: int)
    ensures (a, b) == FirstLexPair(n1, n2, ok)
  {
    a, b := -1, -1;
    var exit := false;
    var i := 0;
    while i < n1 && !exit
      invariant 0 <= i <= n1
      invariant !exit ==> a == -1 && b == -1 && forall r :: 0 <= r < i ==> !RowHit(n2, ok)(r)
      invariant exit ==> (a, b) == FirstLexPair(n1, n2, ok)
    {
      var j := 0;
      while j < n2
        invariant 0 <= j <= n2
        invariant forall k :: 0 <= k < j ==> !Row(ok, i)(k)
      {
        if ok(i, j) {
          FirstIndexUnique(n2, Row(ok, i), 0, j);
          FirstIndexUnique(n1, RowHit(n2, ok), 0, i);
          a, b := i, j;
          exit := true;
          break;
        }
        j := j + 1;
      }
      i := i + 1;
    }
  }

  /** The index kept by a running strict maximum over the first n values, started at `floor` and
      restricted to indices satisfying `ok`: the first index of the largest admissible value above
      the floor, or -1 when no admissible value exceeds it. */
  function LeadIndex(vals: seq<real>, floor: real, ok: int -> bool, n: nat): (r: int)
    requires n <= |vals|
    ensures r == -1 || (0 <= r < n && ok(r) && vals[r] > floor)
    ensures r == -1 ==> forall k :: 0 <= k < n && ok(k) ==> vals[k] <= floor
    ensures r != -1 ==> forall k :: 0 <= k < n && ok(k) ==> vals[k] <= vals[r]
    ensures r != -1 ==> forall k :: 0 <= k < r && ok(k) ==> vals[k] < vals[r]
  {
    if n == 0 then -1
    else
      var j := LeadIndex(vals, floor, ok, n - 1);
      var best := if j == -1 then floor else vals[j];
      if ok(n - 1) && vals[n - 1] > best then n - 1 else j
  }

  /** The value of the running maximum after the scan: the leading value, or the floor. */
  function LeadValue(vals: seq<real>, floor: real, idx: int): real
    requires -1 <= idx < |vals|
  {
    if idx == -1 then floor else vals[idx]
  }

  /** The argmax loop of the leading-object pickers. */
  method ScanLeading(vals: seq<real>, floor: real, ok: int -> bool) returns (idx: int, best: real)
    ensures idx == LeadIndex(vals, floor, ok, |vals|)
    ensures best == LeadValue(vals, floor, idx)
  {
    idx, best := -1, floor;
    var i := 0;
    while i < |vals|
      invariant 0 <= i <= |vals|
      invariant idx == LeadIndex(vals, floor, ok, i)
      invariant best == LeadValue(vals, floor, idx)
    {
      if ok(i) && vals[i] > best {
        best := vals[i];
        idx := i;
      }
      i := i + 1;
    }
  }

  /** Every index is admissible. */
  function AnyIndex(): int -> bool
  {
    k => true
  }

  /** Every index except `skip`. */
  function OtherThan(skip: int): int -> bool
  {
    k => k != skip
  }

  /** `PickJetAnd2Gamma`.  Its jet loop never gets past the first jet: it breaks there when jet 0
      qualifies, and otherwise reaches the check `jetIdx < 0`, placed inside the loop body, which
      returns {-1,-1,-1} at once.  The photon search behind that check is thus unreachable and the
      photon slots are always -1; the model keeps just the first iteration. */
  method PickJetAnd2Gamma(n: nat, qual: int -> bool) returns (out: seq<int>)
    ensures out == if n > 0 && qual(0) then [0, -1, -1] else [-1, -1, -1]
  {
    var jetIdx := -1;
    if 0 < n {
      if qual(0) {
        jetIdx := 0;
      } else {
        return [-1, -1, -1];
      }
    }
    out := [jetIdx, -1, -1];
  }
}
