/** The particle record shared by the simulation and its renderer. */
module ParticleTypes {

  /** The three regimes a particle can be in; `Void` is declared but never assigned. */
  datatype Regime = Normal | Void | Flipped

  /** One particle: identity, radial distance, angle, base speed and regime. */
  datatype Particle = Particle(id: int, r: real, theta: real, v: real, state: Regime)
}
