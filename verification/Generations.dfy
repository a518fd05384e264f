/** One provider generation: its lease count and its cleanup task. */
module Generations {
  /** The cleanup task of a generation: none, created but not running yet, inside
      `runtime.cleanup()`, or done after a success. */
  datatype Cleanup = NoTask | Scheduled | Started | Ended

  datatype Generation = Generation(leases: nat, drained: bool, retired: bool, closed: bool, cleanup: Cleanup)

  function NewGeneration(): Generation { Generation(0, true, false, false, NoTask) }

  function Leased(g: Generation): Generation { g.(leases := g.leases + 1, drained := false) }

  /** `_close_generation` up to its await. */
  function CloseRequested(g: Generation): Generation {
    if g.closed || g.leases != 0 || g.cleanup != NoTask then g else g.(cleanup := Scheduled)
  }

  /** `_release`: the last lease of a retired generation asks for its cleanup, unless the
      manager is closing and will do so itself. */
  function Returned(g: Generation, closing: bool): Generation {
    if g.leases == 0 then g
    else if g.leases > 1 then g.(leases := g.leases - 1)
    else
      var idle := g.(leases := 0, drained := true);
      if idle.retired && !closing then CloseRequested(idle) else idle
  }

  function Retired(g: Generation): Generation { g.(retired := true) }

  /** The cleanup task's end. */
  function Cleaned(g: Generation, ok: bool): Generation {
    if ok then g.(closed := true, cleanup := Ended) else g.(cleanup := NoTask)
  }

  /** What every published generation keeps: the drained flag says whether leases are
      out, and nothing is cleaned up while one is. */
  predicate GenerationOk(g: Generation) {
    && (g.drained <==> g.leases == 0)
    && (g.cleanup != NoTask ==> g.retired && g.leases == 0)
    && (g.closed <==> g.cleanup == Ended)
  }
}
