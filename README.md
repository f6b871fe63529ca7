# OFM Explorer flip simulation in Dafny

This project models the numeric core of the OFM Explorer "flip" simulation
(`components/FlipSimulation.tsx`). It has two parts.

- **Particle dynamics.** Each particle has an id, a radius `r`, an angle
  `theta`, a base speed `v` and a regime: `Normal`, `Void` or `Flipped`. Its
  shape follows `types.ts`. On each animation tick every particle is mapped
  to a fresh record:
  - A normal particle moves inward by `min(v + 0.1 * 20 / max(1, abs(r - RS)), 5)`.
    If it reaches the boundary `RS = 100`, it is placed at `RS - 1` and becomes
    flipped.
  - A flipped particle moves inward by 0.5. Once its radius drops below 0,
    it respawns at `CENTER = 300` as normal.
  - A void particle passes through unchanged.
- **Analytic sampler.** The chart data is computed by a loop over the odd
  radii 1..199. It skips radii within 2 of the boundary. For each kept radius
  it records `Fr = (r - RS) / 50` and `Entropy = min(10, 1 / abs(Fr + 0.001))`.

All arithmetic is exact, over `real`.

Modules:
- `RealMath` (`realmath.dfy`): `Math.abs`, `Math.min` and `Math.max`.
- `SimConstants` (`sim_constants.dfy`): `RS`, `CANVAS_SIZE`, `CENTER`, `Math.PI` and the population size.
- `ParticleTypes` (`particle.dfy`): the `Particle` record.
- `Dynamics` (`dynamics.dfy`): spawning, the tick rule `Step`, its `map` over the store (`StepAll`), repeated ticks (`Iterate`, `Run`), and the invariant and progress lemmas.
- `GraphData` (`graph_data.dfy`): the sampler. `GenerateGraphData` is the imperative loop. It is proved equal to the recursive specification `SamplesFrom(1)`, and the lemmas describe that specification.

Some names and comments in the code suggest more than the code does (`types.ts` calls `v` the velocity, and the comment at `components/FlipSimulation.tsx:51` gives a rate law). The model follows the code:
- The capped velocity is a local of the tick. It is never written back into the particle, so `v` is constant for the particle's lifetime.
- A respawned particle keeps its old `v`.
- `Void` is never assigned. A void particle passes through a tick unchanged.
- The entropy's epsilon sits inside the absolute value, `abs(Fr + 0.001)`, not `abs(Fr) + 0.001`.

## Model

| member | source | states |
|---|---|---|
| Dynamics.Spawn | components/FlipSimulation.tsx:38-44 | a new particle is normal, keeps its id, starts in `[RS + 50, CENTER + 50)` (so outside the boundary), has angle in `[0, 2π)` and speed in `[0.5, 1.5)`, and is consistent |
| Dynamics.InitialParticles | components/FlipSimulation.tsx:38-45 | the initial store has 150 normal particles, numbered by position, all outside the boundary and consistent |
| Dynamics.Attraction | components/FlipSimulation.tsx:53-59 | the pull is in `(0, 20]` and is exactly `20 / abs(r - RS)` once the distance is at least 1 |
| Dynamics.Velocity | components/FlipSimulation.tsx:60 | the per-tick displacement never exceeds the cap 5, is at least `min(v, 5)`, and is positive whenever `v >= 0` |
| Dynamics.Step | components/FlipSimulation.tsx:50-84 | a tick keeps `id`, `theta` and `v`, leaves a void particle unchanged, and never produces or removes the void regime |
| Dynamics.NormalStep | components/FlipSimulation.tsx:57-67 | a normal particle whose new radius is `<= RS` becomes flipped at exactly `RS - 1`; otherwise it stays normal at `r - velocity > RS`, strictly inward when `v >= 0` |
| Dynamics.FlippedStep | components/FlipSimulation.tsx:68-76 | a consistent flipped particle respawns, as normal at `CENTER`, exactly when `r < 0.5`; otherwise it stays flipped, exactly 0.5 further in, with `0 <= r <= RS - 1.5` |
| Dynamics.RegimeCycle | components/FlipSimulation.tsx:57-77 | a particle enters the flipped regime only from normal and always lands at `RS - 1`; it leaves the flipped regime only by respawning at `CENTER` |
| Dynamics.StepKeepsConsistent | components/FlipSimulation.tsx:57-77 | a tick keeps the invariant: normal implies `r > RS`, and flipped implies `0 <= r <= RS - 1` |
| Dynamics.StepAll | components/FlipSimulation.tsx:49-84 | a tick of the store keeps its length |
| Dynamics.StepAllPointwise | components/FlipSimulation.tsx:50-84 | the store tick is the `map` of the particle tick: same length, same order, element `i` becomes `Step` of element `i` |
| Dynamics.StepAllKeepsConsistent | components/FlipSimulation.tsx:50-84 | a store tick keeps every particle consistent |
| Dynamics.Iterate | components/FlipSimulation.tsx:79-83 | any number of ticks keeps `id`, `theta` and `v`, keeps the void regime exactly where it was, and keeps consistency |
| Dynamics.Run | components/FlipSimulation.tsx:49-50 | any number of store ticks keeps the store's size |
| Dynamics.RunPointwise | components/FlipSimulation.tsx:49-84 | `n` store ticks apply `n` independent ticks to each particle, keeping positions |
| Dynamics.RunKeepsConsistent | components/FlipSimulation.tsx:38-84 | starting from the initial store, every particle stays consistent after any number of ticks |
| Dynamics.NormalFlipsWithin | components/FlipSimulation.tsx:59-67 | a normal particle outside the boundary with `v > 0` stays normal and then flips, at `RS - 1`, within any `n` ticks with `n * min(v, 5) >= r - RS` |
| Dynamics.SpawnFlipsWithin500 | components/FlipSimulation.tsx:40-67 | every spawned particle first flips within 500 ticks |
| Dynamics.FlippedDescent | components/FlipSimulation.tsx:68-76 | while its radius covers `j` half-steps, a flipped particle after `j` ticks is the same particle with radius `r - 0.5 * j` |
| Dynamics.RespawnAfter199 | components/FlipSimulation.tsx:63-76 | a particle that has just flipped, at `RS - 1`, is flipped at `RS - 1 - 0.5 * j` for ticks `0..198` and is normal at `CENTER` on exactly tick 199 |
| GraphData.FlipFunction | components/FlipSimulation.tsx:16 | `Fr * 50 = r - RS`, so `Fr` is negative exactly inside the boundary and positive exactly outside |
| GraphData.Entropy | components/FlipSimulation.tsx:19 | entropy is in `(0, 10]`; it is 10 exactly when `abs(Fr + 0.001) <= 0.1`, and otherwise it is the reciprocal of `abs(Fr + 0.001)` |
| GraphData.OffsetNonZero | components/FlipSimulation.tsx:19 | `Fr + 0.001` is never zero at an integer radius, so the sampler's division is defined |
| GraphData.GenerateGraphData | components/FlipSimulation.tsx:10-28 | the loop returns exactly the specification `SamplesFrom(1)`: 98 samples at kept radii in strictly increasing order, each with the value facts below |
| GraphData.SkippedOdd | components/FlipSimulation.tsx:14 | among odd radii, the exclusion `abs(r - RS) < 2` removes exactly 99 and 101 |
| GraphData.SamplesLength | components/FlipSimulation.tsx:13-14 | the number of samples from an odd start is the number of odd radii up to 199, less the excluded ones not yet passed |
| GraphData.SamplesKept | components/FlipSimulation.tsx:13-25 | every sample from an odd start is at an odd radius in `[start, 199]` other than 99 and 101, and carries that radius's `Fr` and entropy |
| GraphData.SamplesIncreasing | components/FlipSimulation.tsx:13 | the samples are in strictly increasing radius order |
| GraphData.SamplesComplete | components/FlipSimulation.tsx:13-14 | every odd radius in `[start, 199]` other than 99 and 101 has a sample |
| GraphData.GraphDataFacts | components/FlipSimulation.tsx:10-28 | the chart data has exactly 98 samples, exactly at the odd radii 1..199 other than 99 and 101, in increasing order. Each sample has `Fr * 50 = r - RS` with the sign of `r - RS`, a non-zero `Fr + 0.001`, and entropy `min(10, 1 / abs(Fr + 0.001))` in `(0, 10]` |

## Left out

- The animation loop (`requestAnimationFrame`, `setParticles` and the React hooks) is replaced by explicit repetition: `Iterate` and `Run` apply `n` ticks.
- `Math.random` is not modelled. Its three draws per particle are parameters (`Draw`), each assumed in `[0, 1)`.
- Canvas drawing and the chart markup are rendering only.
- IEEE-754 rounding is not modelled; the model uses exact reals. For example, `20 / d * 0.1` is exactly `2 / d` here.
- The chat interface, the AI-service call, the tab navigation, the theory text and the `Tab`, `ChatMessage` and `OFM_CONTEXT` declarations in `types.ts` are not part of this model. They are UI and network plumbing with no numeric behaviour.
