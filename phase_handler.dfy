/** The phase gate: which optional outputs a run produces at a given
    project phase.  All three features switch on together at phase 2. */
module PhaseHandler {
  /** The phase from which the optional outputs are produced. */
  const GatePhase: int := 2

  /** include_dm_test: the Diebold-Mariano test output. */
  predicate IncludeDmTest(phase: int)
  {
    phase >= GatePhase
  }

  /** include_drift_monitor: residual drift monitoring. */
  predicate IncludeDriftMonitor(phase: int)
  {
    phase >= GatePhase
  }

  /** include_serve_hash: the serving hash in the metrics. */
  predicate IncludeServeHash(phase: int)
  {
    phase >= GatePhase
  }

  // ---------------------------------------------------------------------
  // Properties

  /** The three gates agree at every phase. */
  lemma GatesAgree(phase: int)
    ensures IncludeDmTest(phase) == IncludeDriftMonitor(phase) == IncludeServeHash(phase)
  {
  }

  /** Phases 0 and 1 produce none of the optional outputs; phase 2 produces all. */
  lemma EarlyPhasesDisableAll()
    ensures !IncludeDmTest(0) && !IncludeDriftMonitor(0) && !IncludeServeHash(0)
    ensures !IncludeDmTest(1) && !IncludeDriftMonitor(1) && !IncludeServeHash(1)
    ensures IncludeDmTest(2) && IncludeDriftMonitor(2) && IncludeServeHash(2)
  {
  }

  /** A feature enabled at one phase stays enabled at every later phase. */
  lemma GatesMonotone(p: int, q: int)
    requires p <= q
    ensures IncludeDmTest(p) ==> IncludeDmTest(q)
    ensures IncludeDriftMonitor(p) ==> IncludeDriftMonitor(q)
    ensures IncludeServeHash(p) ==> IncludeServeHash(q)
  {
  }
}
