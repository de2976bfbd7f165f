/** What one frame reads from outside the simulation: the wall clock, the
    sine function applied to it, and the random samples of particle bursts. */
module Environment {
  import opened Physics

  /** `now` is `Date.now()` in milliseconds (one reading for the whole frame);
      `sin` stands for `Math.sin` and is left uninterpreted; `draw(i, count)`
      supplies the samples of particle `i` of a burst of `count`. */
  datatype Env = Env(now: real, sin: real -> real, draw: (nat, nat) -> Draw)

  /** `Math.sin(t)`. */
  function Sin(env: Env, t: real): real { env.sin(t) }

  /** The flying enemies' vertical speed, `2 * sin(now / 500)`. */
  function HoverSpeed(env: Env): real { Sin(env, env.now / 500.0) * 2.0 }

  /** The power-ups' vertical bob per frame, `0.5 * sin(now / 200)`. */
  function Bob(env: Env): real { Sin(env, env.now / 200.0) * 0.5 }

  /** What the model assumes of `Math.sin`: its values lie in [-1, 1]. */
  ghost predicate SineBounded(env: Env)
  {
    forall t :: -1.0 <= Sin(env, t) <= 1.0
  }
}
