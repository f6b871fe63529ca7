/** The particle dynamics of the flip simulation: how the store is filled at
    mount time, the per-particle tick rule, and the tick over the whole store.
    The tick is pure: every particle is mapped to a fresh record. */
module Dynamics {
  import opened RealMath
  import opened SimConstants
  import opened ParticleTypes

  /* ---------------------------------------------------------------------
     Spawning
     --------------------------------------------------------------------- */

  /** The three `Math.random()` values drawn for one particle, for its
      radius, its angle and its speed. */
  datatype Draw = Draw(radius: real, angle: real, speed: real)

  /** `Math.random()` returns a value in [0, 1). */
  predicate ValidDraw(d: Draw) {
    0.0 <= d.radius < 1.0 && 0.0 <= d.angle < 1.0 && 0.0 <= d.speed < 1.0
  }

  /** The regime-dependent radius bounds every particle keeps: a normal
      particle is outside the boundary, a flipped one is inside it and not
      below the centre. `Void` is never assigned, so it is left free. */
  predicate Consistent(p: Particle) {
    (p.state == Normal ==> p.r > RS) &&
    (p.state == Flipped ==> 0.0 <= p.r <= RS - 1.0)
  }

  predicate AllConsistent(ps: seq<Particle>) {
    forall i :: 0 <= i < |ps| ==> Consistent(ps[i])
  }

  /** A freshly created particle: it starts outside the boundary, in the
      band [RS + 50, CENTER + 50), with speed in [0.5, 1.5). */
  function Spawn(i: int, d: Draw): (p: Particle)
    requires ValidDraw(d)
    ensures p.id == i && p.state == Normal
    ensures RS + 50.0 <= p.r < CENTER + 50.0
    ensures 0.0 <= p.theta < 2.0 * PI
    ensures 0.5 <= p.v < 1.5
    ensures Consistent(p)
  {
    Particle(i, d.radius * (CENTER - RS) + RS + 50.0, d.angle * PI * 2.0, 0.5 + d.speed, Normal)
  }

  /** The initial store: one spawned particle per draw, numbered by position. */
  function InitialParticles(draws: seq<Draw>): (ps: seq<Particle>)
    requires |draws| == POPULATION
    requires forall i :: 0 <= i < |draws| ==> ValidDraw(draws[i])
    ensures |ps| == POPULATION
    ensures forall i :: 0 <= i < |ps| ==> ps[i].id == i && ps[i].state == Normal && RS + 50.0 <= ps[i].r < CENTER + 50.0
    ensures AllConsistent(ps)
  {
    seq(|draws|, i requires 0 <= i < |draws| => Spawn(i, draws[i]))
  }

  /* ---------------------------------------------------------------------
     One tick
     --------------------------------------------------------------------- */

  /** The pull towards the boundary, `20 / max(1, |r - RS|)`: clamped so it
      never exceeds 20 next to the boundary. */
  function Attraction(r: real): (a: real)
    ensures 0.0 < a <= 20.0
    ensures Abs(r - RS) >= 1.0 ==> a * Abs(r - RS) == 20.0
  {
    20.0 / Max(1.0, Abs(r - RS))
  }

  /** The distance a normal particle moves inward this tick. It is a local
      of the tick and never stored back into the particle. */
  function Velocity(p: Particle): (vel: real)
    ensures vel <= 5.0
    ensures vel >= Min(p.v, 5.0)
    ensures p.v >= 0.0 ==> vel > 0.0
  {
    Min(p.v + Attraction(p.r) * 0.1, 5.0)
  }

  /** The tick rule for one particle. */
  function Step(p: Particle): (q: Particle)
    ensures q.id == p.id && q.theta == p.theta && q.v == p.v
    ensures p.state == Void ==> q == p
    ensures q.state == Void <==> p.state == Void
  {
    match p.state
    case Normal =>
      var newR := p.r - Velocity(p);
      if newR <= RS then p.(r := RS - 1.0, state := Flipped) else p.(r := newR)
    case Flipped =>
      var newR := p.r - 0.5;
      if newR < 0.0 then p.(r := CENTER, state := Normal) else p.(r := newR)
    case Void => p
  }

  /** The tick over the whole store, the `map` of `Step`. */
  function StepAll(ps: seq<Particle>): (qs: seq<Particle>)
    ensures |qs| == |ps|
  {
    if ps == [] then [] else [Step(ps[0])] + StepAll(ps[1..])
  }

  /** `n` consecutive ticks of one particle. */
  function Iterate(p: Particle, n: nat): (q: Particle)
    ensures q.id == p.id && q.theta == p.theta && q.v == p.v
    ensures q.state == Void <==> p.state == Void
    ensures Consistent(p) ==> Consistent(q)
    decreases n
  {
    if n == 0 then p else (StepKeepsConsistent(p); Iterate(Step(p), n - 1))
  }

  /** `n` consecutive ticks of the whole store. */
  function Run(ps: seq<Particle>, n: nat): (qs: seq<Particle>)
    ensures |qs| == |ps|
    decreases n
  {
    if n == 0 then ps else Run(StepAll(ps), n - 1)
  }

  /* ---------------------------------------------------------------------
     Properties of one tick
     --------------------------------------------------------------------- */

  /** A normal particle either crosses the boundary and lands at `RS - 1` as
      flipped, or stays normal outside the boundary having moved inward by
      its velocity. */
  lemma NormalStep(p: Particle)
    requires p.state == Normal
    ensures p.r - Velocity(p) <= RS ==> Step(p) == p.(r := RS - 1.0, state := Flipped)
    ensures p.r - Velocity(p) > RS ==> Step(p) == p.(r := p.r - Velocity(p))
    ensures Step(p).state == Normal ==> RS < Step(p).r
    ensures Step(p).state == Normal && p.v >= 0.0 ==> Step(p).r < p.r
    ensures Step(p).state != Void
  {
  }

  /** A consistent flipped particle respawns exactly when its radius is
      below half a step; it then becomes normal at `CENTER`. Otherwise it
      stays flipped, half a step further in, and still inside the boundary
      with room to spare: `0 <= r <= RS - 1.5`. */
  lemma FlippedStep(p: Particle)
    requires p.state == Flipped && Consistent(p)
    ensures Step(p).state == Normal <==> p.r < 0.5
    ensures Step(p).state == Normal ==> Step(p).r == CENTER
    ensures Step(p).state != Normal ==> Step(p).state == Flipped && p.r - Step(p).r == 0.5 && 0.0 <= Step(p).r <= RS - 1.5
  {
  }

  /** Regimes only change along `Normal -> Flipped -> (respawn) -> Normal`:
      entering the flipped regime always lands at `RS - 1`, and leaving it
      always respawns at `CENTER`. */
  lemma RegimeCycle(p: Particle)
    ensures p.state != Flipped && Step(p).state == Flipped ==> p.state == Normal && Step(p).r == RS - 1.0
    ensures p.state == Flipped && Step(p).state == Normal ==> Step(p).r == CENTER
  {
  }

  /** Every tick keeps the radius bounds of `Consistent`. */
  lemma StepKeepsConsistent(p: Particle)
    ensures Consistent(p) ==> Consistent(Step(p))
  {
  }

  /* ---------------------------------------------------------------------
     Properties of the tick over the store
     --------------------------------------------------------------------- */

  /** `StepAll` is the `map`: same length, same order, each element ticked. */
  lemma {:induction false} StepAllPointwise(ps: seq<Particle>)
    ensures forall i :: 0 <= i < |ps| ==> StepAll(ps)[i] == Step(ps[i])
  {
    if ps != [] {
      StepAllPointwise(ps[1..]);
      forall i | 1 <= i < |ps|
        ensures StepAll(ps)[i] == Step(ps[i])
      {
        assert StepAll(ps)[i] == StepAll(ps[1..])[i - 1];
      }
    }
  }

  lemma StepAllKeepsConsistent(ps: seq<Particle>)
    requires AllConsistent(ps)
    ensures AllConsistent(StepAll(ps))
  {
    StepAllPointwise(ps);
    forall i | 0 <= i < |ps|
      ensures Consistent(StepAll(ps)[i])
    {
      StepKeepsConsistent(ps[i]);
    }
  }

  /** `n` ticks of the store tick every particle `n` times, independently. */
  lemma {:induction false} RunPointwise(ps: seq<Particle>, n: nat)
    ensures forall i :: 0 <= i < |ps| ==> Run(ps, n)[i] == Iterate(ps[i], n)
    decreases n
  {
    if n > 0 {
      StepAllPointwise(ps);
      RunPointwise(StepAll(ps), n - 1);
    }
  }

  /** From the initial store on, every particle stays consistent forever. */
  lemma RunKeepsConsistent(draws: seq<Draw>, n: nat)
    requires |draws| == POPULATION
    requires forall i :: 0 <= i < |draws| ==> ValidDraw(draws[i])
    ensures AllConsistent(Run(InitialParticles(draws), n))
  {
    var ps := InitialParticles(draws);
    RunPointwise(ps, n);
  }

  /* ---------------------------------------------------------------------
     Progress
     --------------------------------------------------------------------- */

  lemma IterateFront(p: Particle, n: nat)
    ensures Iterate(p, n + 1) == Iterate(Step(p), n)
  {
  }

  lemma {:induction false} IterateLast(p: Particle, n: nat)
    ensures Iterate(p, n + 1) == Step(Iterate(p, n))
    decreases n
  {
    if n > 0 {
      IterateLast(Step(p), n - 1);
    }
  }

  /** `p` flips for the first time on tick `k`: it is normal on ticks
      `0 .. k-1` and flipped, at `RS - 1`, on tick `k`. */
  ghost predicate FirstFlipAt(p: Particle, k: nat) {
    1 <= k && Iterate(p, k).state == Flipped && Iterate(p, k).r == RS - 1.0 &&
    forall j :: 0 <= j < k ==> Iterate(p, j).state == Normal
  }

  /** A normal particle outside the boundary with positive speed moves inward
      by at least `min(v, 5)` per tick, so it first flips within any `n`
      ticks that cover its distance to the boundary at that rate. */
  lemma {:induction false} NormalFlipsWithin(p: Particle, n: nat)
    requires p.state == Normal && p.r > RS && p.v > 0.0
    requires (n as real) * Min(p.v, 5.0) >= p.r - RS
    ensures exists k: nat :: k <= n && FirstFlipAt(p, k)
    decreases n
  {
    var m := Min(p.v, 5.0);
    assert n != 0;
    var q := Step(p);
    assert Iterate(p, 1) == q;
    if q.state == Flipped {
      assert Iterate(p, 0).state == Normal;
      assert FirstFlipAt(p, 1);
    } else {
      NormalStep(p);
      assert ((n - 1) as real) * m >= q.r - RS by {
        assert q.r <= p.r - m;
        assert ((n - 1) as real) * m == (n as real) * m - m;
      }
      NormalFlipsWithin(q, n - 1);
      var k: nat :| k <= n - 1 && FirstFlipAt(q, k);
      IterateFront(p, k);
      forall j | 0 <= j < k + 1
        ensures Iterate(p, j).state == Normal
      {
        if j > 0 {
          IterateFront(p, j - 1);
        }
      }
      assert FirstFlipAt(p, k + 1);
    }
  }

  /** Every spawned particle flips within 500 ticks. */
  lemma SpawnFlipsWithin500(i: int, d: Draw)
    requires ValidDraw(d)
    ensures exists k: nat :: k <= 500 && FirstFlipAt(Spawn(i, d), k)
  {
    var p := Spawn(i, d);
    NormalFlipsWithin(p, 500);
  }

  /** While a flipped particle's radius covers `j` half-steps, `j` ticks just
      subtract `0.5 * j` from it. */
  lemma {:induction false} FlippedDescent(p: Particle, j: nat)
    requires p.state == Flipped
    requires (j as real) * 0.5 <= p.r
    ensures Iterate(p, j) == p.(r := p.r - (j as real) * 0.5)
    decreases j
  {
    if j > 0 {
      FlippedDescent(Step(p), j - 1);
    }
  }

  /** A particle that has just flipped (at `RS - 1`) stays flipped for 198
      more ticks and respawns at `CENTER` as normal on exactly the 199th. */
  lemma RespawnAfter199(p: Particle)
    requires p.state == Flipped && p.r == RS - 1.0
    ensures forall j :: 0 <= j < 199 ==> Iterate(p, j).state == Flipped && Iterate(p, j).r == RS - 1.0 - (j as real) * 0.5
    ensures Iterate(p, 199) == p.(r := CENTER, state := Normal)
  {
    forall j | 0 <= j < 199
      ensures Iterate(p, j) == p.(r := RS - 1.0 - (j as real) * 0.5)
    {
      FlippedDescent(p, j);
    }
    IterateLast(p, 198);
  }
}
