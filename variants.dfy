/** The two drivers side by side: the package's state cycle and the
    script's hand-numbered handshake and teardown. */
module Variants {
  import Simulation
  import ScriptSimulation

  /** The two variants send the same handshake and the same first FIN; the
      last three packets of the teardown differ, because the package's
      builders always send `seq0 + 1` / `seq0 + 2` while the script moves on
      to `seq0 + 2` and then `seq0 + 3`. */
  lemma VariantsDiverge(s0: int)
    ensures ScriptSimulation.Script(s0)[..4] == Simulation.CycleSegments(s0)[..4]
    ensures forall i :: 4 <= i < 7 ==> ScriptSimulation.Script(s0)[i].seqNum == s0 + 2
    ensures forall i :: 4 <= i < 7 ==> Simulation.CycleSegments(s0)[i].seqNum == s0 + 1
    ensures ScriptSimulation.Script(s0)[6].ackNum == s0 + 3
  {
  }
}
