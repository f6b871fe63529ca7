/** The module-level constants of the flip simulation. */
module SimConstants {

  /** Boundary (Schwarzschild) radius where a particle flips, in pixels. */
  const RS: real := 100.0

  const CANVAS_SIZE: real := 600.0

  /** Centre of the canvas; a flipped particle that leaves the domain respawns at this radius. */
  const CENTER: real := CANVAS_SIZE / 2.0

  /** JavaScript's `Math.PI`, as the shortest decimal that round-trips to that double. */
  const PI: real := 3.141592653589793

  /** Number of particles created when the simulation mounts. */
  const POPULATION: nat := 150
}
