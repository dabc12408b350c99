/** The three in-place walks of the frame loop, each over a local copy of its
    pool: obstacles from the back, particles and power-ups from the front with
    removal by splicing. Each is proved to compute its pass from Passes. */
module Walks {
  import opened Geometry
  import opened Sequences
  import opened Entities
  import opened Passes

  /** Appends one new particle per draw to `particles`, all at (x, y) in
      `color`, in the order of the draws. */
  method CreateParticles(particles: seq<Particle>, x: real, y: real, color: string,
                         draws: seq<ParticleDraw>)
    returns (r: seq<Particle>)
    requires BurstDraws(draws)
    ensures r == particles + Burst(x, y, color, draws)
  {
    r := particles;
    for i := 0 to |draws|
      invariant r == particles + Burst(x, y, color, draws[..i])
    {
      r := r + [NewParticle(x, y, color, draws[i])];
      assert draws[..i + 1][..i] == draws[..i];
    }
    assert draws[..|draws|] == draws;
  }

  /** Walks the obstacles from the back: each falls by its speed and, once
      its top is below the canvas, is spliced out where it stands. */
  method FallWalk(obs: seq<Obstacle>, canvasHeight: real) returns (pool: seq<Obstacle>)
    ensures pool == FallPass(obs, canvasHeight)
  {
    pool := obs;
    var i := |pool| - 1;
    while i >= 0
      invariant -1 <= i < |obs|
      invariant pool == obs[..i + 1] + FallPass(obs[i + 1..], canvasHeight)
    {
      FallPassStep(obs[i..], canvasHeight);
      assert obs[i..][1..] == obs[i + 1..];
      assert pool[i] == obs[i];
      var o := Fallen(pool[i]);
      pool := pool[i := o];
      if o.y > canvasHeight {
        pool := RemoveAt(pool, i);
        assert pool == obs[..i] + FallPass(obs[i + 1..], canvasHeight);
      } else {
        assert pool == obs[..i] + [o] + FallPass(obs[i + 1..], canvasHeight);
      }
      i := i - 1;
    }
    assert obs[0..] == obs;
  }

  /** Walks the particles from the front, slot by slot up to the length the
      pool had when the walk began: each visited particle moves and fades, and
      one no longer visible is spliced out, which shifts its successor into
      the slot just visited. */
  method FadeWalk(ps: seq<Particle>) returns (pool: seq<Particle>)
    ensures pool == FadePass(ps)
  {
    pool := ps;
    var n := |pool|;
    var k := 0;
    while k < n
      invariant 0 <= k <= n && |pool| <= n
      invariant k <= |pool| ==> pool[..k] + FadePass(pool[k..]) == FadePass(ps)
      invariant k > |pool| ==> pool == FadePass(ps)
    {
      if k < |pool| {
        ghost var before := pool;
        var p := Faded(pool[k]);
        pool := pool[k := p];
        if p.alpha <= 0.0 {
          pool := RemoveAt(pool, k);
        }
        FadeVisit(before, k, pool);
      } else if k == |pool| {
        assert pool[..k] == pool && pool[k..] == [];
      }
      k := k + 1;
    }
  }

  /** The effect of collecting power-up `c`: a health power-up restores one
      point up to the maximum, a multiplier power-up doubles the multiplier,
      and a burst in the kind's colour appears at `c`'s centre. Stated as one
      more step of the effects of collecting `cs` from `health`, `multiplier`
      and `particles`. */
  method ApplyPowerUp(c: PowerUp, hp: int, mult: int, sparks: seq<Particle>, burst: seq<ParticleDraw>,
                      ghost health: int, ghost multiplier: int, ghost particles: seq<Particle>,
                      ghost cs: seq<PowerUp>)
    returns (hp': int, mult': int, sparks': seq<Particle>)
    requires BurstDraws(burst)
    requires hp == HealthAfter(health, cs) && mult == MultiplierAfter(multiplier, cs)
    requires sparks == particles + CollectBursts(cs, burst)
    ensures hp' == HealthAfter(health, cs + [c])
    ensures mult' == MultiplierAfter(multiplier, cs + [c])
    ensures sparks' == particles + CollectBursts(cs + [c], burst)
  {
    hp', mult' := hp, mult;
    if c.kind == Health {
      hp' := Min(HEALTH_MAX, hp + 1);
    } else {
      mult' := mult * 2;
    }
    sparks' := CreateParticles(sparks, CenterX(c.Bounds()), CenterY(c.Bounds()), KindColor(c.kind), burst);
    CollectOneMore(health, multiplier, cs, c, burst);
    AppendAssoc(particles, CollectBursts(cs, burst),
                Burst(CenterX(c.Bounds()), CenterY(c.Bounds()), KindColor(c.kind), burst));
  }

  /** Where the power-up walk stands before visiting slot `k`: what it has
      kept so far, then the pass over the slots from `k` on, is what the whole
      pass keeps; what it has collected, then what the rest collects, is what
      the whole pass collects (once `k` is past the pool, the pool and the
      collection are final); and health, multiplier and particles are the
      effects of what it has collected. */
  ghost predicate PowerWalked(ship: Box, canvasHeight: real, ps: seq<PowerUp>, health: int, multiplier: int,
                              particles: seq<Particle>, burst: seq<ParticleDraw>,
                              k: nat, pool: seq<PowerUp>, hp: int, mult: int, sparks: seq<Particle>,
                              collected: seq<PowerUp>)
    requires BurstDraws(burst)
  {
    var sweep := PowerPass(ship, canvasHeight, ps);
    && (k <= |pool| ==>
          var rest := PowerPass(ship, canvasHeight, pool[k..]);
          pool[..k] + rest.kept == sweep.kept && collected + rest.collected == sweep.collected)
    && (k > |pool| ==> pool == sweep.kept && collected == sweep.collected)
    && hp == HealthAfter(health, collected)
    && mult == MultiplierAfter(multiplier, collected)
    && sparks == particles + CollectBursts(collected, burst)
  }

  /** The walk's visit at slot `k`, the body of the per-power-up callback:
      the power-up drifts; below the canvas it is spliced out; touching the
      ship it is collected (its effect applied) and spliced out; otherwise it
      stays, moved. `taken` is what the visit collects; the visit takes the
      walk from slot `k` to slot `k + 1`. */
  method VisitPowerUp(ship: Box, canvasHeight: real, pool: seq<PowerUp>, k: nat,
                      hp: int, mult: int, sparks: seq<Particle>, burst: seq<ParticleDraw>,
                      ghost ps: seq<PowerUp>, ghost health: int, ghost multiplier: int,
                      ghost particles: seq<Particle>, ghost collected: seq<PowerUp>)
    returns (next: seq<PowerUp>, hp': int, mult': int, sparks': seq<Particle>, ghost taken: seq<PowerUp>)
    requires k < |pool| && BurstDraws(burst)
    requires PowerWalked(ship, canvasHeight, ps, health, multiplier, particles, burst,
                         k, pool, hp, mult, sparks, collected)
    ensures |next| <= |pool|
    ensures PowerWalked(ship, canvasHeight, ps, health, multiplier, particles, burst,
                        k + 1, next, hp', mult', sparks', collected + taken)
  {
    hp', mult', sparks' := hp, mult, sparks;
    taken := [];
    var p := Drifted(pool[k]);
    next := pool[k := p];
    if p.y > canvasHeight {
      next := RemoveAt(next, k);
    } else if CheckCollision(ship, p.Bounds()) {
      hp', mult', sparks' := ApplyPowerUp(p, hp, mult, sparks, burst, health, multiplier, particles, collected);
      next := RemoveAt(next, k);
      taken := [p];
    }
    PowerVisit(ship, canvasHeight, pool, k, next, taken);
    assert collected + [] == collected;
    if k < |next| {
      AppendAssoc(collected, taken, PowerPass(ship, canvasHeight, next[k + 1..]).collected);
    }
  }

  /** Walks the power-ups from the front, slot by slot up to the length the
      pool had when the walk began, visiting each slot that still exists. */
  method PowerWalk(ship: Box, canvasHeight: real, ps: seq<PowerUp>, health: int, multiplier: int,
                   particles: seq<Particle>, burst: seq<ParticleDraw>)
    returns (pool: seq<PowerUp>, hp: int, mult: int, sparks: seq<Particle>)
    requires BurstDraws(burst)
    ensures var sweep := PowerPass(ship, canvasHeight, ps);
            && pool == sweep.kept
            && hp == HealthAfter(health, sweep.collected)
            && mult == MultiplierAfter(multiplier, sweep.collected)
            && sparks == particles + CollectBursts(sweep.collected, burst)
  {
    pool, hp, mult, sparks := ps, health, multiplier, particles;
    ghost var collected: seq<PowerUp> := [];
    assert ps[0..] == ps;
    var n := |pool|;
    var k := 0;
    while k < n
      invariant 0 <= k <= n && |pool| <= n
      invariant PowerWalked(ship, canvasHeight, ps, health, multiplier, particles, burst,
                            k, pool, hp, mult, sparks, collected)
    {
      if k < |pool| {
        ghost var taken;
        pool, hp, mult, sparks, taken :=
          VisitPowerUp(ship, canvasHeight, pool, k, hp, mult, sparks, burst,
                       ps, health, multiplier, particles, collected);
        collected := collected + taken;
      } else if k == |pool| {
        assert pool[..k] == pool && pool[k..] == [];
      }
      k := k + 1;
    }
    if k == |pool| {
      assert pool[..k] == pool && pool[k..] == [];
    }
  }
}
