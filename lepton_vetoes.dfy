/** The lepton-veto loop shared by the all-hadronic and semileptonic modules. */
module LeptonVetoes {

  /** No counted object means no veto; otherwise the scan returns true at the first object that
      passes the cuts, and false when none does.  `count` is the branch's object count, `n` the
      length of the kinematic columns scanned. */
  method VetoLoop(count: int, n: nat, passes: int -> bool) returns (veto: bool)
    ensures veto <==> count >= 1 && exists i :: 0 <= i < n && passes(i)
  {
    if count < 1 {
      return false;
    }
    veto := false;
    var i := 0;
    while i < n
      invariant 0 <= i <= n
      invariant forall k :: 0 <= k < i ==> !passes(k)
    {
      veto := passes(i);
      if veto {
        return veto;
      }
      i := i + 1;
    }
  }
}
