/** The C `switch` statements of the scale-factor code, several of which have no `break`. */
module CSwitch {
  import opened Wrappers

  /** A `switch` whose arms each assign the same variable and none of which ends in `break`:
      control enters at arm `entry` and runs every later arm, so the value of the last arm is the
      one that survives; with no matching entry nothing is assigned (None). */
  function FallThrough<T>(entry: int, arms: seq<T>): (r: Option<T>)
    ensures r.Some? <==> 0 <= entry < |arms|
    ensures r.Some? ==> r.value == arms[|arms| - 1]
  {
    if 0 <= entry < |arms| then Some(RunArms(arms[entry..])) else None
  }

  /** Running the arms in order: each assignment overwrites the previous one. */
  function RunArms<T>(arms: seq<T>): (r: T)
    requires |arms| >= 1
    ensures r == arms[|arms| - 1]
    decreases |arms|
  {
    if |arms| == 1 then arms[0] else RunArms(arms[1..])
  }
}
