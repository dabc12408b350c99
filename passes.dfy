/** What one pass of the game over a pool does, as functions of the pool:
    obstacles falling and leaving the canvas, treasures picked up by the ship,
    the obstacle the ship hits, particles fading, power-ups drifting and being
    collected. The session's methods are proved to compute exactly these. */
module Passes {
  import opened Geometry
  import opened Sequences
  import opened Entities

  // ---------------------------------------------------------------- obstacles

  /** Every obstacle after one fall, in the same order. */
  function FallenAll(obs: seq<Obstacle>): (r: seq<Obstacle>)
    ensures |r| == |obs|
    ensures forall i :: 0 <= i < |obs| ==> r[i] == Fallen(obs[i])
  {
    if obs == [] then [] else [Fallen(obs[0])] + FallenAll(obs[1..])
  }

  /** An obstacle is kept while its top has not passed the canvas bottom. */
  function OnCanvas(canvasHeight: real): Obstacle -> bool
  {
    (o: Obstacle) => o.y <= canvasHeight
  }

  /** The obstacle pool after one frame: each obstacle falls once, and those
      now below the canvas are dropped; the others keep their order. */
  function FallPass(obs: seq<Obstacle>, canvasHeight: real): (r: seq<Obstacle>)
    ensures |r| <= |obs|
    ensures forall o :: o in r ==> o.y <= canvasHeight
  {
    RetainMembership(FallenAll(obs), OnCanvas(canvasHeight));
    Retain(FallenAll(obs), OnCanvas(canvasHeight))
  }

  /** The pass takes the pool apart from its front: the first obstacle's fate
      followed by the pass over the rest. */
  lemma FallPassStep(obs: seq<Obstacle>, canvasHeight: real)
    requires obs != []
    ensures FallPass(obs, canvasHeight)
         == (if Fallen(obs[0]).y <= canvasHeight then [Fallen(obs[0])] else [])
            + FallPass(obs[1..], canvasHeight)
  {
    var all := FallenAll(obs);
    assert all[0] == Fallen(obs[0]);
    assert all[1..] == FallenAll(obs[1..]);
  }

  /** After the pass, an obstacle is in the pool exactly when it is one of
      the old obstacles moved down by its speed and it has not left the
      canvas. */
  lemma FallPassMembership(obs: seq<Obstacle>, canvasHeight: real)
    ensures forall o :: o in FallPass(obs, canvasHeight) <==>
              o.y <= canvasHeight && exists i :: 0 <= i < |obs| && o == Fallen(obs[i])
  {
    var all := FallenAll(obs);
    RetainMembership(all, OnCanvas(canvasHeight));
    forall o | o in all
      ensures exists i :: 0 <= i < |obs| && o == Fallen(obs[i])
    {
      var i :| 0 <= i < |all| && all[i] == o;
      assert o == Fallen(obs[i]);
    }
    forall i | 0 <= i < |obs|
      ensures Fallen(obs[i]) in all
    {
      assert all[i] == Fallen(obs[i]);
    }
  }

  // ---------------------------------------------------------------- treasures

  /** A treasure stays in the pool when the ship's box does not touch it. */
  function Missed(ship: Box): Treasure -> bool
  {
    (t: Treasure) => !CheckCollision(ship, t.Bounds())
  }

  /** The treasures the ship picks up in one frame: each earns points once. */
  function Hits(ship: Box, ts: seq<Treasure>): nat
  {
    Rejected(ts, Missed(ship))
  }

  /** The pickup pass keeps exactly the treasures the ship misses, in their
      order, and the number it removes is the number of treasures scored. */
  lemma PickupPass(ship: Box, ts: seq<Treasure>)
    ensures forall t :: t in Retain(ts, Missed(ship)) <==> t in ts && !CheckCollision(ship, t.Bounds())
    ensures |Retain(ts, Missed(ship))| + Hits(ship, ts) == |ts|
  {
    RetainMembership(ts, Missed(ship));
    RetainRejected(ts, Missed(ship));
  }

  // ---------------------------------------------------------------- obstacle hit

  /** The index at which a back-to-front scan of the pool first finds an
      obstacle the ship touches, or -1 when it touches none: the highest such
      index. */
  function LastHit(ship: Box, obs: seq<Obstacle>): (k: int)
    ensures -1 <= k < |obs|
    ensures k >= 0 ==> CheckCollision(ship, obs[k].Bounds())
    ensures forall j :: k < j < |obs| ==> !CheckCollision(ship, obs[j].Bounds())
  {
    if obs == [] then -1
    else if CheckCollision(ship, obs[|obs| - 1].Bounds()) then |obs| - 1
    else LastHit(ship, obs[..|obs| - 1])
  }

  /** The scan's answer is determined: an index the ship touches with no
      touched obstacle above it is the one the scan stops at. */
  lemma LastHitUnique(ship: Box, obs: seq<Obstacle>, k: int)
    requires -1 <= k < |obs|
    requires k >= 0 ==> CheckCollision(ship, obs[k].Bounds())
    requires forall j :: k < j < |obs| ==> !CheckCollision(ship, obs[j].Bounds())
    ensures LastHit(ship, obs) == k
  {
  }

  /** Removing the obstacle the scan stopped at takes exactly one obstacle out
      of the pool, keeps the others in their order, and keeps in particular
      every obstacle the ship does not touch. */
  lemma LastHitRemovesOne(ship: Box, obs: seq<Obstacle>)
    requires LastHit(ship, obs) >= 0
    ensures var k := LastHit(ship, obs);
            var r := RemoveAt(obs, k);
            && |r| == |obs| - 1
            && r == obs[..k] + obs[k + 1..]
            && forall o :: o in obs && !CheckCollision(ship, o.Bounds()) ==> o in r
  {
    var k := LastHit(ship, obs);
    var r := RemoveAt(obs, k);
    forall o | o in obs && !CheckCollision(ship, o.Bounds())
      ensures o in r
    {
      var i :| 0 <= i < |obs| && obs[i] == o;
      assert i != k;
      if i < k {
        assert r[i] == o;
      } else {
        assert r[i - 1] == o;
      }
    }
  }

  // ---------------------------------------------------------------- particles

  /** Every particle in the pool is still visible. */
  predicate Alive(ps: seq<Particle>)
  {
    forall p :: p in ps ==> p.alpha > 0.0
  }

  /** The particle pool after one pass that walks it front to back, fading
      each particle it visits and removing it in place once it is no longer
      visible. Removing a particle shifts its successor into the slot the walk
      has just left, so that successor is kept without being visited, and the
      walk goes on with the particle after it. */
  function FadePass(ps: seq<Particle>): (r: seq<Particle>)
    ensures |ps| / 2 <= |r| <= |ps|
  {
    if ps == [] then []
    else
      var p := Faded(ps[0]);
      if p.alpha > 0.0 then [p] + FadePass(ps[1..])
      else if |ps| == 1 then []
      else [ps[1]] + FadePass(ps[2..])
  }

  /** The pass over the pool from slot `k` on, taken apart at that slot. */
  lemma FadePassAt(pool: seq<Particle>, k: nat)
    requires k < |pool|
    ensures var p := Faded(pool[k]);
            FadePass(pool[k..])
              == if p.alpha > 0.0 then [p] + FadePass(pool[k + 1..])
                 else if k + 1 == |pool| then []
                 else [pool[k + 1]] + FadePass(pool[k + 2..])
  {
    assert pool[k..][1..] == pool[k + 1..];
    if k + 1 < |pool| {
      assert pool[k..][2..] == pool[k + 2..];
    }
  }

  /** One visit of the walk at slot `k`: the particle there fades and, once
      no longer visible, is spliced out. The visit keeps "the slots before the
      next one to visit, then the pass over the rest" equal to what it was;
      when the visit empties the last slot, the pool is that value. */
  lemma FadeVisit(pool: seq<Particle>, k: nat, next: seq<Particle>)
    requires k < |pool|
    requires next == var p := Faded(pool[k]);
                     if p.alpha > 0.0 then pool[k := p] else RemoveAt(pool[k := p], k)
    ensures k < |next| ==> next[..k + 1] + FadePass(next[k + 1..]) == pool[..k] + FadePass(pool[k..])
    ensures |next| <= k ==> next == pool[..k] + FadePass(pool[k..])
  {
    FadePassAt(pool, k);
    var p := Faded(pool[k]);
    UpdateSlices(pool, k, p);
    if p.alpha > 0.0 {
      AppendAssoc(pool[..k], [p], FadePass(pool[k + 1..]));
    } else {
      RemoveAtSlices(pool[k := p], k);
      if k + 1 < |pool| {
        AppendAssoc(pool[..k], [pool[k + 1]], FadePass(pool[k + 2..]));
      } else {
        assert next == pool[..k] + [];
      }
    }
  }

  /** Every particle after one fade, in the same order. */
  function FadedAll(ps: seq<Particle>): (r: seq<Particle>)
    ensures |r| == |ps|
    ensures forall i :: 0 <= i < |ps| ==> r[i] == Faded(ps[i])
  {
    if ps == [] then [] else [Faded(ps[0])] + FadedAll(ps[1..])
  }

  function Visible(): Particle -> bool
  {
    (p: Particle) => p.alpha > 0.0
  }

  /** The pass keeps the pool visible: a visited particle survives only while
      visible, and a skipped one is one of the old, visible particles. */
  lemma {:induction false} FadePassKeepsAlive(ps: seq<Particle>)
    requires Alive(ps)
    ensures Alive(FadePass(ps))
  {
    if ps != [] {
      if Faded(ps[0]).alpha > 0.0 {
        FadePassKeepsAlive(ps[1..]);
      } else if |ps| > 1 {
        FadePassKeepsAlive(ps[2..]);
      }
    }
  }

  /** When no particle fades out, the pass fades every particle exactly once
      and removes none, as a full retain-the-visible pass would. */
  lemma {:induction false} FadePassWithoutRemoval(ps: seq<Particle>)
    requires forall i :: 0 <= i < |ps| ==> Faded(ps[i]).alpha > 0.0
    ensures FadePass(ps) == FadedAll(ps) == Retain(FadedAll(ps), Visible())
  {
    if ps != [] {
      FadePassWithoutRemoval(ps[1..]);
      assert FadedAll(ps) == [Faded(ps[0])] + FadedAll(ps[1..]);
    }
    RetainAll(FadedAll(ps), Visible());
  }

  /** Each particle left by the pass is either a visited particle that is
      still visible, or an unvisited one that came right after a particle the
      pass removed. */
  lemma {:induction false} FadePassOrigins(ps: seq<Particle>)
    ensures forall q :: q in FadePass(ps) ==>
              || (q.alpha > 0.0 && exists i :: 0 <= i < |ps| && q == Faded(ps[i]))
              || (exists i :: 1 <= i < |ps| && q == ps[i] && Faded(ps[i - 1]).alpha <= 0.0)
  {
    if ps != [] {
      var p := Faded(ps[0]);
      if p.alpha > 0.0 {
        FadePassOrigins(ps[1..]);
        forall q | q in FadePass(ps)
          ensures || (q.alpha > 0.0 && exists i :: 0 <= i < |ps| && q == Faded(ps[i]))
                  || (exists i :: 1 <= i < |ps| && q == ps[i] && Faded(ps[i - 1]).alpha <= 0.0)
        {
          if q != p {
            assert q in FadePass(ps[1..]);
            ShiftOrigin(ps, 1, q);
          }
        }
      } else if |ps| > 1 {
        FadePassOrigins(ps[2..]);
        forall q | q in FadePass(ps)
          ensures || (q.alpha > 0.0 && exists i :: 0 <= i < |ps| && q == Faded(ps[i]))
                  || (exists i :: 1 <= i < |ps| && q == ps[i] && Faded(ps[i - 1]).alpha <= 0.0)
        {
          if q == ps[1] {
            assert Faded(ps[1 - 1]).alpha <= 0.0;
          } else {
            assert q in FadePass(ps[2..]);
            ShiftOrigin(ps, 2, q);
          }
        }
      }
    }
  }

  /** An origin found in a suffix of the pool is an origin in the pool. */
  lemma ShiftOrigin(ps: seq<Particle>, d: nat, q: Particle)
    requires d <= |ps|
    requires || (q.alpha > 0.0 && exists i :: 0 <= i < |ps[d..]| && q == Faded(ps[d..][i]))
             || (exists i :: 1 <= i < |ps[d..]| && q == ps[d..][i] && Faded(ps[d..][i - 1]).alpha <= 0.0)
    ensures || (q.alpha > 0.0 && exists i :: 0 <= i < |ps| && q == Faded(ps[i]))
            || (exists i :: 1 <= i < |ps| && q == ps[i] && Faded(ps[i - 1]).alpha <= 0.0)
  {
    if q.alpha > 0.0 && exists i :: 0 <= i < |ps[d..]| && q == Faded(ps[d..][i]) {
      var i :| 0 <= i < |ps[d..]| && q == Faded(ps[d..][i]);
      assert q == Faded(ps[i + d]);
    } else {
      var i :| 1 <= i < |ps[d..]| && q == ps[d..][i] && Faded(ps[d..][i - 1]).alpha <= 0.0;
      assert q == ps[i + d] && Faded(ps[i + d - 1]).alpha <= 0.0;
    }
  }

  /** Two particles one step from fading out: the pass removes the first and
      keeps the second untouched, where a pass that visited every particle
      would leave none. */
  lemma FadePassSkipsShifted()
    ensures var p := Particle(0.0, 0.0, 0.0, 0.0, 1.0, 0.02, DAMAGE_COLOR);
            && FadePass([p, p]) == [p]
            && Retain(FadedAll([p, p]), Visible()) == []
  {
    var p := Particle(0.0, 0.0, 0.0, 0.0, 1.0, 0.02, DAMAGE_COLOR);
    assert [p, p][2..] == [];
    assert FadedAll([p, p]) == [Faded(p), Faded(p)];
    assert [Faded(p), Faded(p)][1..] == [Faded(p)];
  }

  // ---------------------------------------------------------------- power-ups

  /** What a power-up pass leaves in the pool and what it collects, in order. */
  datatype Sweep = Sweep(kept: seq<PowerUp>, collected: seq<PowerUp>)

  /** The power-up pool after one front-to-back pass: each visited power-up
      drifts down; one now below the canvas is removed; otherwise one the ship
      touches is collected and removed; otherwise it stays. As with particles,
      a removal shifts the next power-up into the slot just left, and the walk
      does not visit it. */
  function PowerPass(ship: Box, canvasHeight: real, ps: seq<PowerUp>): (r: Sweep)
    ensures |r.kept| + |r.collected| <= |ps|
    ensures forall c :: c in r.collected ==> c.y <= canvasHeight && CheckCollision(ship, c.Bounds())
  {
    if ps == [] then Sweep([], [])
    else
      var p := Drifted(ps[0]);
      if p.y <= canvasHeight && !CheckCollision(ship, p.Bounds()) then
        var rest := PowerPass(ship, canvasHeight, ps[1..]);
        Sweep([p] + rest.kept, rest.collected)
      else
        var taken := if p.y > canvasHeight then [] else [p];
        if |ps| == 1 then Sweep([], taken)
        else
          var rest := PowerPass(ship, canvasHeight, ps[2..]);
          Sweep([ps[1]] + rest.kept, taken + rest.collected)
  }

  /** The power-ups a pass keeps are no taller than the ones it started with:
      drifting and skipping never change a power-up's size. */
  lemma {:induction false} PowerPassKeepsHeights(ship: Box, canvasHeight: real, ps: seq<PowerUp>, m: real)
    requires forall p :: p in ps ==> p.height <= m
    ensures forall q :: q in PowerPass(ship, canvasHeight, ps).kept ==> q.height <= m
  {
    if ps != [] {
      var p := Drifted(ps[0]);
      if p.y <= canvasHeight && !CheckCollision(ship, p.Bounds()) {
        PowerPassKeepsHeights(ship, canvasHeight, ps[1..], m);
      } else if |ps| > 1 {
        assert ps[1] in ps;
        PowerPassKeepsHeights(ship, canvasHeight, ps[2..], m);
      }
    }
  }

  /** The pass over the pool from slot `k` on, taken apart at that slot. */
  lemma PowerPassAt(ship: Box, canvasHeight: real, pool: seq<PowerUp>, k: nat)
    requires k < |pool|
    ensures var p := Drifted(pool[k]);
            var r := PowerPass(ship, canvasHeight, pool[k..]);
            if p.y <= canvasHeight && !CheckCollision(ship, p.Bounds()) then
              var rest := PowerPass(ship, canvasHeight, pool[k + 1..]);
              r == Sweep([p] + rest.kept, rest.collected)
            else
              var taken := if p.y > canvasHeight then [] else [p];
              if k + 1 == |pool| then r == Sweep([], taken)
              else
                var rest := PowerPass(ship, canvasHeight, pool[k + 2..]);
                r == Sweep([pool[k + 1]] + rest.kept, taken + rest.collected)
  {
    assert pool[k..][1..] == pool[k + 1..];
    if k + 1 < |pool| {
      assert pool[k..][2..] == pool[k + 2..];
    }
  }

  /** One visit of the walk at slot `k`: the power-up there drifts and is
      spliced out when it is below the canvas or collected; `taken` is what
      the visit collects. The visit keeps "the slots before the next one to
      visit, then the pass over the rest" and "collected so far, then what the
      rest collects" equal to what they were. */
  lemma PowerVisit(ship: Box, canvasHeight: real, pool: seq<PowerUp>, k: nat,
                   next: seq<PowerUp>, taken: seq<PowerUp>)
    requires k < |pool|
    requires next == var p := Drifted(pool[k]);
                     if p.y <= canvasHeight && !CheckCollision(ship, p.Bounds()) then pool[k := p]
                     else RemoveAt(pool[k := p], k)
    requires taken == var p := Drifted(pool[k]);
                      if p.y <= canvasHeight && CheckCollision(ship, p.Bounds()) then [p] else []
    ensures var r := PowerPass(ship, canvasHeight, pool[k..]);
            k < |next| ==>
              var rest := PowerPass(ship, canvasHeight, next[k + 1..]);
              next[..k + 1] + rest.kept == pool[..k] + r.kept && taken + rest.collected == r.collected
    ensures var r := PowerPass(ship, canvasHeight, pool[k..]);
            |next| <= k ==> next == pool[..k] + r.kept && taken == r.collected
  {
    var p := Drifted(pool[k]);
    if p.y <= canvasHeight && !CheckCollision(ship, p.Bounds()) {
      PowerKeptVisit(ship, canvasHeight, pool, k);
    } else {
      PowerRemovedVisit(ship, canvasHeight, pool, k);
    }
  }

  /** A visit at slot `k` that keeps the drifted power-up in place: the
      slots up to and including `k`, then the pass over the rest, are still
      what the pass from `k` on keeps, and nothing is collected. */
  lemma PowerKeptVisit(ship: Box, canvasHeight: real, pool: seq<PowerUp>, k: nat)
    requires k < |pool|
    requires Drifted(pool[k]).y <= canvasHeight && !CheckCollision(ship, Drifted(pool[k]).Bounds())
    ensures var next := pool[k := Drifted(pool[k])];
            var r := PowerPass(ship, canvasHeight, pool[k..]);
            var rest := PowerPass(ship, canvasHeight, next[k + 1..]);
            next[..k + 1] + rest.kept == pool[..k] + r.kept && rest.collected == r.collected
  {
    PowerPassAt(ship, canvasHeight, pool, k);
    var p := Drifted(pool[k]);
    UpdateSlices(pool, k, p);
    AppendAssoc(pool[..k], [p], PowerPass(ship, canvasHeight, pool[k + 1..]).kept);
  }

  /** A visit at slot `k` that splices the drifted power-up out, collecting
      it when it is still on the canvas: the slots before `k`, the successor
      now in slot `k`, then the pass over the rest, are what the pass from `k`
      on keeps, and the visit's collection followed by the rest's is what that
      pass collects. When the spliced slot was the last, the slots before it
      are the pool. */
  lemma PowerRemovedVisit(ship: Box, canvasHeight: real, pool: seq<PowerUp>, k: nat)
    requires k < |pool|
    requires Drifted(pool[k]).y > canvasHeight || CheckCollision(ship, Drifted(pool[k]).Bounds())
    ensures var p := Drifted(pool[k]);
            var next := RemoveAt(pool[k := p], k);
            var taken := if p.y > canvasHeight then [] else [p];
            var r := PowerPass(ship, canvasHeight, pool[k..]);
            && (k < |next| ==>
                  var rest := PowerPass(ship, canvasHeight, next[k + 1..]);
                  next[..k + 1] + rest.kept == pool[..k] + r.kept && taken + rest.collected == r.collected)
            && (|next| <= k ==> next == pool[..k] + r.kept && taken == r.collected)
  {
    PowerPassAt(ship, canvasHeight, pool, k);
    var p := Drifted(pool[k]);
    UpdateSlices(pool, k, p);
    RemoveAtSlices(pool[k := p], k);
    if k + 1 < |pool| {
      AppendAssoc(pool[..k], [pool[k + 1]], PowerPass(ship, canvasHeight, pool[k + 2..]).kept);
    } else {
      assert RemoveAt(pool[k := p], k) == pool[..k] + [];
    }
  }

  /** With the single power-up the pool can hold, the pass drifts it once and
      then drops it off the canvas, collects it on contact, or keeps it. */
  lemma PowerPassSingle(ship: Box, canvasHeight: real, p: PowerUp)
    ensures var q := Drifted(p);
            PowerPass(ship, canvasHeight, [p])
              == if q.y > canvasHeight then Sweep([], [])
                 else if CheckCollision(ship, q.Bounds()) then Sweep([], [q])
                 else Sweep([q], [])
  {
  }

  /** Health after collecting the power-ups `cs` in order: each health
      power-up adds one point, capped at the maximum. */
  function HealthAfter(health: int, cs: seq<PowerUp>): (h: int)
    ensures health <= HEALTH_MAX ==> health <= h <= HEALTH_MAX
    ensures (forall i :: 0 <= i < |cs| ==> cs[i].kind != Health) ==> h == health
  {
    if cs == [] then health
    else
      var before := HealthAfter(health, cs[..|cs| - 1]);
      if cs[|cs| - 1].kind == Health then Min(HEALTH_MAX, before + 1) else before
  }

  function Min(a: int, b: int): int { if a <= b then a else b }

  /** The score multiplier after collecting the power-ups `cs` in order: each
      multiplier power-up doubles it. */
  function MultiplierAfter(multiplier: int, cs: seq<PowerUp>): (m: int)
    ensures multiplier >= 1 ==> m >= multiplier
    ensures (forall i :: 0 <= i < |cs| ==> cs[i].kind != Multiplier) ==> m == multiplier
  {
    if cs == [] then multiplier
    else
      var before := MultiplierAfter(multiplier, cs[..|cs| - 1]);
      if cs[|cs| - 1].kind == Multiplier then before * 2 else before
  }

  /** The particles added for the power-ups `cs`: one burst per power-up, at
      its centre, in its kind's colour. */
  function CollectBursts(cs: seq<PowerUp>, draws: seq<ParticleDraw>): (ps: seq<Particle>)
    requires BurstDraws(draws)
    ensures |ps| == |cs| * |draws|
    ensures Alive(ps)
  {
    if cs == [] then []
    else
      var c := cs[|cs| - 1];
      CollectBursts(cs[..|cs| - 1], draws)
        + Burst(CenterX(c.Bounds()), CenterY(c.Bounds()), KindColor(c.kind), draws)
  }

  /** Collecting one more power-up `c`: health and the multiplier take one
      more step, and one more burst is added at `c`'s centre. */
  lemma CollectOneMore(health: int, multiplier: int, cs: seq<PowerUp>, c: PowerUp, draws: seq<ParticleDraw>)
    requires BurstDraws(draws)
    ensures HealthAfter(health, cs + [c])
         == if c.kind == Health then Min(HEALTH_MAX, HealthAfter(health, cs) + 1) else HealthAfter(health, cs)
    ensures MultiplierAfter(multiplier, cs + [c])
         == if c.kind == Multiplier then MultiplierAfter(multiplier, cs) * 2 else MultiplierAfter(multiplier, cs)
    ensures CollectBursts(cs + [c], draws)
         == CollectBursts(cs, draws) + Burst(CenterX(c.Bounds()), CenterY(c.Bounds()), KindColor(c.kind), draws)
  {
    assert (cs + [c])[..|cs|] == cs;
  }

  /** How many of the power-ups `cs` are of kind `k`. */
  function NumKind(cs: seq<PowerUp>, k: PowerKind): (n: nat)
    ensures n <= |cs|
  {
    if cs == [] then 0
    else NumKind(cs[..|cs| - 1], k) + (if cs[|cs| - 1].kind == k then 1 else 0)
  }

  /** Two to the power `n`. */
  function Pow2(n: nat): (p: int)
    ensures p >= 1
  {
    if n == 0 then 1 else 2 * Pow2(n - 1)
  }

  /** Collecting health power-ups one after another adds one point each,
      capped at the maximum: the cap is applied once, to the total. */
  lemma {:induction false} HealthAfterCount(health: int, cs: seq<PowerUp>)
    requires health <= HEALTH_MAX
    ensures HealthAfter(health, cs) == Min(HEALTH_MAX, health + NumKind(cs, Health))
  {
    if cs != [] {
      HealthAfterCount(health, cs[..|cs| - 1]);
    }
  }

  /** Collecting multiplier power-ups one after another doubles the
      multiplier once for each of them. */
  lemma {:induction false} MultiplierAfterCount(multiplier: int, cs: seq<PowerUp>)
    ensures MultiplierAfter(multiplier, cs) == multiplier * Pow2(NumKind(cs, Multiplier))
  {
    if cs != [] {
      MultiplierAfterCount(multiplier, cs[..|cs| - 1]);
    }
  }
}
