/**
 * The particles that visualise the concentration: each drifts through the
 * normalised room (every coordinate in [-0.5, 0.5]), wrapping around at the
 * walls, and fades out once its lifetime is over. The population follows a
 * target count derived from the concentration, a few particles per frame.
 */
module Particles {
  import opened Geometry

  datatype Particle = Particle(position: Vec3, velocity: Vec3, alpha: real, lifetime: real)

  /** The longest lifetime a particle is spawned with, in seconds. */
  const MAX_LIFETIME: real := 5.0
  /** Alpha lost per second once the lifetime is over, guarded against a zero lifetime. */
  const FADE_RATE: real := if MAX_LIFETIME > 0.0001 then 255.0 / MAX_LIFETIME else 25500.0
  /** A new particle is fully opaque. */
  const SPAWN_ALPHA: real := 255.0
  /** At most this many particles are spawned, or retired, per frame. */
  const PER_FRAME_ADJUST: nat := 2
  /** A retired particle's lifetime is cut down to this. */
  const RETIRE_LIFETIME: real := 0.1

  /** Spawn ranges: position, velocity and lifetime factor, each drawn uniformly from [lo, hi). */
  const POSITION_RANGE: real := 0.49
  const VELOCITY_RANGE: real := 0.02
  const LIFETIME_FACTOR_LOW: real := 0.5
  const LIFETIME_FACTOR_HIGH: real := 1.0

  /** Seven independent samples of the canonical uniform distribution on [0, 1), one per random quantity of a spawn. */
  datatype Draw = Draw(px: real, py: real, pz: real, vx: real, vy: real, vz: real, life: real)
  {
    predicate Valid()
    {
      && 0.0 <= px < 1.0 && 0.0 <= py < 1.0 && 0.0 <= pz < 1.0
      && 0.0 <= vx < 1.0 && 0.0 <= vy < 1.0 && 0.0 <= vz < 1.0
      && 0.0 <= life < 1.0
    }
  }

  predicate ValidDraws(ds: seq<Draw>)
  {
    forall i :: 0 <= i < |ds| ==> ds[i].Valid()
  }

  lemma MulSigns(a: real, b: real)
    requires a > 0.0 && b >= 0.0
    ensures a * b >= 0.0 && (b > 0.0 ==> a * b > 0.0)
  {
  }

  /** d * u: a range scaled by a sample, or a velocity by a frame time; named so that products stay opaque to the arithmetic. */
  function Scaled(d: real, u: real): real
  {
    d * u
  }

  lemma ScaledBelow(d: real, u: real)
    requires d > 0.0 && 0.0 <= u < 1.0
    ensures 0.0 <= Scaled(d, u) < d
  {
    MulSigns(d, u);
    MulSigns(d, 1.0 - u);
    assert d * (1.0 - u) == d - d * u;
  }

  lemma ScaledNonNegative(d: real, u: real)
    requires d > 0.0 && u >= 0.0
    ensures Scaled(d, u) >= 0.0
  {
    MulSigns(d, u);
  }

  /** A sample u of [0, 1) mapped onto [lo, hi). */
  function Uniform(lo: real, hi: real, u: real): (r: real)
    requires lo < hi && 0.0 <= u < 1.0
    ensures lo <= r < hi
  {
    ScaledBelow(hi - lo, u);
    lo + Scaled(hi - lo, u)
  }

  predicate InBox(v: Vec3, lo: real, hi: real)
  {
    lo <= v.x < hi && lo <= v.y < hi && lo <= v.z < hi
  }

  /** A freshly spawned particle: random position and velocity, opaque, with a random lifetime. */
  function Spawn(d: Draw): (p: Particle)
    requires d.Valid()
    ensures InBox(p.position, -POSITION_RANGE, POSITION_RANGE)
    ensures InBox(p.velocity, -VELOCITY_RANGE, VELOCITY_RANGE)
    ensures p.alpha == SPAWN_ALPHA
    ensures MAX_LIFETIME * LIFETIME_FACTOR_LOW <= p.lifetime < MAX_LIFETIME * LIFETIME_FACTOR_HIGH
  {
    var factor := Uniform(LIFETIME_FACTOR_LOW, LIFETIME_FACTOR_HIGH, d.life);
    LifetimeInRange(factor);
    Particle(Vec3(Uniform(-POSITION_RANGE, POSITION_RANGE, d.px),
                  Uniform(-POSITION_RANGE, POSITION_RANGE, d.py),
                  Uniform(-POSITION_RANGE, POSITION_RANGE, d.pz)),
             Vec3(Uniform(-VELOCITY_RANGE, VELOCITY_RANGE, d.vx),
                  Uniform(-VELOCITY_RANGE, VELOCITY_RANGE, d.vy),
                  Uniform(-VELOCITY_RANGE, VELOCITY_RANGE, d.vz)),
             SPAWN_ALPHA,
             Scaled(MAX_LIFETIME, factor))
  }

  /** A lifetime factor in [LIFETIME_FACTOR_LOW, LIFETIME_FACTOR_HIGH) gives a lifetime in the matching range of seconds. */
  lemma LifetimeInRange(factor: real)
    requires LIFETIME_FACTOR_LOW <= factor < LIFETIME_FACTOR_HIGH
    ensures MAX_LIFETIME * LIFETIME_FACTOR_LOW <= Scaled(MAX_LIFETIME, factor) < MAX_LIFETIME * LIFETIME_FACTOR_HIGH
  {
  }

  /** The particles spawned from a run of draws, in order. */
  function SpawnAll(ds: seq<Draw>): (r: seq<Particle>)
    requires ValidDraws(ds)
    ensures |r| == |ds|
    ensures forall i :: 0 <= i < |r| ==> r[i] == Spawn(ds[i])
    decreases |ds|
  {
    if ds == [] then [] else SpawnAll(ds[..|ds| - 1]) + [Spawn(ds[|ds| - 1])]
  }

  /** What every particle on screen satisfies: visible, not too long-lived, slow. */
  predicate ParticleOk(p: Particle)
  {
    && 0.0 < p.alpha <= SPAWN_ALPHA
    && p.lifetime <= MAX_LIFETIME
    && -VELOCITY_RANGE <= p.velocity.x <= VELOCITY_RANGE
    && -VELOCITY_RANGE <= p.velocity.y <= VELOCITY_RANGE
    && -VELOCITY_RANGE <= p.velocity.z <= VELOCITY_RANGE
  }

  predicate AllOk(ps: seq<Particle>)
  {
    forall i :: 0 <= i < |ps| ==> ParticleOk(ps[i])
  }

  lemma SpawnedOk(ds: seq<Draw>)
    requires ValidDraws(ds)
    ensures AllOk(SpawnAll(ds))
  {
    var r := SpawnAll(ds);
    forall i | 0 <= i < |r|
      ensures ParticleOk(r[i])
    {
      assert r[i] == Spawn(ds[i]);
    }
  }

  // ---------------------------------------------------------------------
  // Target count

  function Max(a: real, b: real): real { if a >= b then a else b }

  function MinInt(a: int, b: int): int { if a <= b then a else b }

  /** A `static_cast<int>` of a float: truncation toward zero. */
  function Trunc(x: real): (n: int)
    ensures x >= 0.0 ==> n as real <= x < n as real + 1.0
    ensures x < 0.0 ==> n as real - 1.0 < x <= n as real
  {
    if x >= 0.0 then x.Floor else -((-x).Floor)
  }

  lemma DivMonotone(a: real, b: real, c: real)
    requires a <= b && c > 0.0
    ensures a / c <= b / c
  {
    assert b / c - a / c == (b - a) / c;
  }

  lemma ScaleMonotone(m: nat, a: real, b: real)
    requires a <= b
    ensures m as real * a <= m as real * b
  {
    assert m as real * b - m as real * a == m as real * (b - a);
  }

  lemma TruncMonotone(x: real, y: real)
    requires x <= y
    ensures Trunc(x) <= Trunc(y)
  {
  }

  /** The reference concentration for the particle scale: max(C0, 1), raised to the target when that exceeds 1.5 times it. */
  function ReferenceConcentration(c0: real, target: real): (r: real)
    ensures r >= 1.0
    ensures r >= Max(c0, 1.0)
  {
    var base := Max(c0, 1.0);
    if target > base * 1.5 then target else base
  }

  /** The capacity scaled by target / cRef, before truncation. */
  function Proportion(maxParticles: nat, target: real, cRef: real): real
    requires cRef > 0.0
  {
    maxParticles as real * (target / cRef)
  }

  lemma ProportionMonotone(maxParticles: nat, t1: real, t2: real, cRef: real)
    requires t1 <= t2 && cRef > 0.0
    ensures Proportion(maxParticles, t1, cRef) <= Proportion(maxParticles, t2, cRef)
  {
    DivMonotone(t1, t2, cRef);
    ScaleMonotone(maxParticles, t1 / cRef, t2 / cRef);
  }

  lemma ProportionFull(maxParticles: nat, target: real, cRef: real)
    requires cRef > 0.0 && target >= cRef
    ensures Proportion(maxParticles, target, cRef) >= maxParticles as real
  {
    QuotientAtLeastOne(target, cRef);
    ScaleMonotone(maxParticles, 1.0, target / cRef);
  }

  lemma ProportionNonPositive(maxParticles: nat, target: real, cRef: real)
    requires cRef > 0.0 && target <= 0.0
    ensures Proportion(maxParticles, target, cRef) <= 0.0
  {
    DivMonotone(target, 0.0, cRef);
    ScaleMonotone(maxParticles, target / cRef, 0.0);
  }

  /** The number of particles the target concentration calls for. */
  function TargetParticleCount(c0: real, target: real, maxParticles: nat): (n: int)
    ensures 0 <= n <= maxParticles
  {
    var cRef := ReferenceConcentration(c0, target);
    var scaled := if cRef > 0.001 then Trunc(Proportion(maxParticles, target, cRef)) else 0;
    var capped := MinInt(scaled, maxParticles);
    if capped < 0 then 0 else capped
  }

  /** No concentration, no particles. */
  lemma NoConcentrationNoParticles(c0: real, target: real, maxParticles: nat)
    requires target <= 0.0
    ensures TargetParticleCount(c0, target, maxParticles) == 0
  {
    var cRef := ReferenceConcentration(c0, target);
    ProportionNonPositive(maxParticles, target, cRef);
  }

  lemma QuotientAtLeastOne(a: real, c: real)
    requires c > 0.0 && a >= c
    ensures a / c >= 1.0
  {
    var q := a / c;
    assert q * c == a;
    assert (q - 1.0) * c == a - c;
  }

  /** From max(C0, 1) upwards the target count is the maximum. */
  lemma TargetCountSaturates(c0: real, target: real, maxParticles: nat)
    requires target >= Max(c0, 1.0)
    ensures TargetParticleCount(c0, target, maxParticles) == maxParticles
  {
    var cRef := ReferenceConcentration(c0, target);
    ProportionFull(maxParticles, target, cRef);
    TruncMonotone(maxParticles as real, Proportion(maxParticles, target, cRef));
  }

  /** For a fixed C0 a higher target concentration never asks for fewer particles. */
  lemma TargetCountMonotone(c0: real, t1: real, t2: real, maxParticles: nat)
    requires t1 <= t2
    ensures TargetParticleCount(c0, t1, maxParticles) <= TargetParticleCount(c0, t2, maxParticles)
  {
    var base := Max(c0, 1.0);
    if t2 > base * 1.5 {
      TargetCountSaturates(c0, t2, maxParticles);
    } else {
      assert ReferenceConcentration(c0, t1) == base && ReferenceConcentration(c0, t2) == base;
      ProportionMonotone(maxParticles, t1, t2, base);
      TruncMonotone(Proportion(maxParticles, t1, base), Proportion(maxParticles, t2, base));
    }
  }

  // ---------------------------------------------------------------------
  // Rate-limited adjustment

  /** Room left below the cap. */
  function Room(n: nat, maxParticles: nat): nat
  {
    if n < maxParticles then maxParticles - n else 0
  }

  /** How many particles one frame spawns: at most the shortfall, at most two, and only while below the cap. */
  function GrowCount(n: nat, target: int, maxParticles: nat): (k: nat)
    requires target > n
    ensures k <= PER_FRAME_ADJUST && k <= target - n && n + k <= if n < maxParticles then maxParticles else n
  {
    MinInt(MinInt(target - n, PER_FRAME_ADJUST), Room(n, maxParticles))
  }

  /** The oldest particle, at the front, has its lifetime cut to RETIRE_LIFETIME; nothing else changes. */
  function Retire(ps: seq<Particle>): (r: seq<Particle>)
    ensures |r| == |ps|
    ensures |ps| > 0 ==> r[0].lifetime <= RETIRE_LIFETIME && r[0].lifetime <= ps[0].lifetime
  {
    if ps == [] then []
    else
      var front := ps[0];
      ps[0 := front.(lifetime := if front.lifetime <= RETIRE_LIFETIME then front.lifetime else RETIRE_LIFETIME)]
  }

  /** Retiring again changes nothing: two passes of the shrink loop act like one. */
  lemma RetireIdempotent(ps: seq<Particle>)
    ensures Retire(Retire(ps)) == Retire(ps)
  {
  }

  /** One frame of the population adjustment towards a target count. */
  function Adjusted(ps: seq<Particle>, target: int, maxParticles: nat, ds: seq<Draw>): (r: seq<Particle>)
    requires |ds| >= PER_FRAME_ADJUST && ValidDraws(ds)
    ensures |ps| <= |r| <= |ps| + PER_FRAME_ADJUST
    ensures |ps| < target ==> |r| <= target
    ensures |ps| <= maxParticles ==> |r| <= maxParticles
  {
    var n := |ps|;
    if target > n then ps + SpawnAll(ds[..GrowCount(n, target, maxParticles)])
    else if target < n then Retire(ps)
    else ps
  }

  /**
   * The adjustment grows the population by at most two, never past the cap,
   * never past the target, and makes progress when it can; the particles
   * already present are kept unchanged, in front.
   */
  lemma AdjustedGrowth(ps: seq<Particle>, target: int, maxParticles: nat, ds: seq<Draw>)
    requires |ds| >= PER_FRAME_ADJUST && ValidDraws(ds)
    requires target > |ps|
    ensures var r := Adjusted(ps, target, maxParticles, ds);
            && |ps| <= |r| <= |ps| + PER_FRAME_ADJUST
            && |r| <= target
            && (|ps| < maxParticles ==> |ps| < |r| <= maxParticles)
            && (|ps| >= maxParticles ==> r == ps)
            && r[..|ps|] == ps
  {
    var r := Adjusted(ps, target, maxParticles, ds);
    assert r[..|ps|] == ps;
  }

  /**
   * When there are too many particles, the size is unchanged and only the
   * front particle's lifetime changes, to min(its lifetime, RETIRE_LIFETIME).
   */
  lemma AdjustedShrink(ps: seq<Particle>, target: int, maxParticles: nat, ds: seq<Draw>)
    requires |ds| >= PER_FRAME_ADJUST && ValidDraws(ds)
    requires target < |ps|
    ensures var r := Adjusted(ps, target, maxParticles, ds);
            && |r| == |ps|
            && (|ps| > 0 ==>
                  && r[0] == ps[0].(lifetime := if ps[0].lifetime <= RETIRE_LIFETIME then ps[0].lifetime else RETIRE_LIFETIME)
                  && r[1..] == ps[1..])
  {
  }

  /** An empty population with a target of at least two, and room for two, gains exactly two spawned particles. */
  lemma EmptyGrowsByTwo(target: int, maxParticles: nat, ds: seq<Draw>)
    requires |ds| >= PER_FRAME_ADJUST && ValidDraws(ds)
    requires target >= PER_FRAME_ADJUST && maxParticles >= PER_FRAME_ADJUST
    ensures Adjusted([], target, maxParticles, ds) == [Spawn(ds[0]), Spawn(ds[1])]
  {
    assert GrowCount(0, target, maxParticles) == PER_FRAME_ADJUST;
    var r := SpawnAll(ds[..PER_FRAME_ADJUST]);
    assert [] + r == r;
    assert r[0] == Spawn(ds[0]) && r[1] == Spawn(ds[1]);
  }

  /** The adjustment keeps every particle well formed. */
  lemma AdjustedOk(ps: seq<Particle>, target: int, maxParticles: nat, ds: seq<Draw>)
    requires |ds| >= PER_FRAME_ADJUST && ValidDraws(ds) && AllOk(ps)
    ensures AllOk(Adjusted(ps, target, maxParticles, ds))
  {
    var n := |ps|;
    if target > n {
      var k := GrowCount(n, target, maxParticles);
      assert ValidDraws(ds[..k]);
      SpawnedOk(ds[..k]);
    }
  }

  // ---------------------------------------------------------------------
  // Per-frame motion

  /** Toroidal wrap on one axis: one correction of a whole room width when past a wall. */
  function Wrap(x: real): (r: real)
    ensures r == x || r == x - 1.0 || r == x + 1.0
    ensures -0.5 <= x <= 0.5 ==> r == x
  {
    if x > 0.5 then x - 1.0 else if x < -0.5 then x + 1.0 else x
  }

  /** A coordinate inside the room that moves by at most one room width stays inside after the wrap. */
  lemma WrapStaysInRoom(x: real, d: real)
    requires -0.5 <= x <= 0.5 && -1.0 <= d <= 1.0
    ensures -0.5 <= Wrap(x + d) <= 0.5
  {
  }

  /** One frame of a particle's life: move, wrap, age, and fade once the lifetime is over. */
  function Advance(p: Particle, dt: real): (q: Particle)
    ensures q.velocity == p.velocity
    ensures q.lifetime == p.lifetime - dt
    ensures q.alpha >= 0.0
    ensures q.lifetime > 0.0 && p.alpha >= 0.0 ==> q.alpha == p.alpha
    ensures dt >= 0.0 && p.alpha >= 0.0 ==> q.alpha <= p.alpha
    ensures q.lifetime <= 0.0 ==>
              q.alpha == (if p.alpha - Scaled(FADE_RATE, dt) < 0.0 then 0.0 else p.alpha - Scaled(FADE_RATE, dt))
  {
    var moved := Vec3(Wrap(p.position.x + Scaled(p.velocity.x, dt)),
                      Wrap(p.position.y + Scaled(p.velocity.y, dt)),
                      Wrap(p.position.z + Scaled(p.velocity.z, dt)));
    var lifetime := p.lifetime - dt;
    var faded := if lifetime <= 0.0 then p.alpha - Scaled(FADE_RATE, dt) else p.alpha;
    assert dt >= 0.0 ==> Scaled(FADE_RATE, dt) >= 0.0 by {
      if dt >= 0.0 {
        ScaledNonNegative(FADE_RATE, dt);
      }
    }
    Particle(moved, p.velocity, if faded < 0.0 then 0.0 else faded, lifetime)
  }

  predicate InRoom(v: Vec3)
  {
    -0.5 <= v.x <= 0.5 && -0.5 <= v.y <= 0.5 && -0.5 <= v.z <= 0.5
  }

  /** A particle inside the room stays inside as long as it moves less than a room width per frame on each axis. */
  lemma AdvanceStaysInRoom(p: Particle, dt: real)
    requires InRoom(p.position)
    requires -1.0 <= Scaled(p.velocity.x, dt) <= 1.0
    requires -1.0 <= Scaled(p.velocity.y, dt) <= 1.0
    requires -1.0 <= Scaled(p.velocity.z, dt) <= 1.0
    ensures InRoom(Advance(p, dt).position)
  {
    WrapStaysInRoom(p.position.x, Scaled(p.velocity.x, dt));
    WrapStaysInRoom(p.position.y, Scaled(p.velocity.y, dt));
    WrapStaysInRoom(p.position.z, Scaled(p.velocity.z, dt));
  }

  /** The per-frame pass: every particle advanced, those whose alpha reached 0 erased, the rest in order. */
  function StepAll(ps: seq<Particle>, dt: real): (r: seq<Particle>)
    ensures |r| <= |ps|
    ensures forall i :: 0 <= i < |r| ==> r[i].alpha > 0.0
    decreases |ps|
  {
    if ps == [] then []
    else
      var rest := StepAll(ps[..|ps| - 1], dt);
      var q := Advance(ps[|ps| - 1], dt);
      if q.alpha > 0.0 then rest + [q] else rest
  }

  /** The pass works particle by particle: running it on a + b is running it on a, then on b. */
  lemma {:induction false} StepAllAppend(a: seq<Particle>, b: seq<Particle>, dt: real)
    ensures StepAll(a + b, dt) == StepAll(a, dt) + StepAll(b, dt)
    decreases |b|
  {
    if b == [] {
      assert a + b == a;
    } else {
      var b' := b[..|b| - 1];
      assert (a + b)[..|a + b| - 1] == a + b';
      StepAllAppend(a, b', dt);
    }
  }

  /** A single particle survives the pass, advanced, exactly when its new alpha is positive. */
  lemma StepOne(p: Particle, dt: real)
    ensures StepAll([p], dt) == if Advance(p, dt).alpha > 0.0 then [Advance(p, dt)] else []
  {
    assert [p][..0] == [];
  }

  /** Running the pass over one more particle appends that particle's outcome. */
  lemma StepAllExtend(ps: seq<Particle>, k: nat, dt: real)
    requires k < |ps|
    ensures StepAll(ps[..k + 1], dt)
            == StepAll(ps[..k], dt) + (if Advance(ps[k], dt).alpha > 0.0 then [Advance(ps[k], dt)] else [])
  {
    assert ps[..k + 1][..k] == ps[..k];
  }

  /** Erasing the first unprocessed particle, at the seam between the processed prefix and the rest. */
  lemma EraseAt(done: seq<Particle>, rest: seq<Particle>)
    requires rest != []
    ensures var cur, i := done + rest, |done|;
            cur[..i] + cur[i + 1..] == done + rest[1..]
  {
    var cur, i := done + rest, |done|;
    assert cur[..i] == done;
    assert cur[i + 1..] == rest[1..];
  }

  /** Replacing the first unprocessed particle by q, at the seam between the processed prefix and the rest. */
  lemma ReplaceAt(done: seq<Particle>, rest: seq<Particle>, q: Particle)
    requires rest != []
    ensures (done + rest)[|done| := q] == (done + [q]) + rest[1..]
  {
  }

  /** A particle erased by the pass leaves the others, in order, as the pass over them alone would. */
  lemma ErasedInPass(a: seq<Particle>, p: Particle, b: seq<Particle>, dt: real)
    requires Advance(p, dt).alpha <= 0.0
    ensures StepAll(a + [p] + b, dt) == StepAll(a, dt) + StepAll(b, dt)
  {
    StepAllAppend(a + [p], b, dt);
    StepAllAppend(a, [p], dt);
    StepOne(p, dt);
  }

  /** A visible particle whose lifetime runs out in this frame loses alpha in this frame. */
  lemma FadesOnceExpired(p: Particle, dt: real)
    requires dt > 0.0 && p.alpha > 0.0 && p.lifetime - dt <= 0.0
    ensures Advance(p, dt).alpha < p.alpha
  {
    MulSigns(FADE_RATE, dt);
  }

  /** n frames of one particle's life, advanced n times. */
  function Frames(p: Particle, dt: real, n: nat): (q: Particle)
    ensures q.velocity == p.velocity
    decreases n
  {
    if n == 0 then p else Frames(Advance(p, dt), dt, n - 1)
  }

  lemma {:induction false} FramesCompose(p: Particle, dt: real, m: nat, n: nat)
    ensures Frames(p, dt, m + n) == Frames(Frames(p, dt, m), dt, n)
    decreases m
  {
    if m > 0 {
      FramesCompose(Advance(p, dt), dt, m - 1, n);
    }
  }

  /** n frames' worth of an amount d: d added n times. */
  function Repeated(n: nat, d: real): (r: real)
    ensures d >= 0.0 ==> r >= 0.0
  {
    if n == 0 then 0.0 else Repeated(n - 1, d) + d
  }

  /** After n frames the lifetime has dropped by n frame times. */
  lemma {:induction false} AgesBy(p: Particle, dt: real, n: nat)
    ensures Frames(p, dt, n).lifetime == p.lifetime - Repeated(n, dt)
    decreases n
  {
    if n > 0 {
      AgesBy(Advance(p, dt), dt, n - 1);
      RepeatedFront(n - 1, dt);
    }
  }

  /** Repeating d n + 1 times is d followed by n more. */
  lemma {:induction false} RepeatedFront(n: nat, d: real)
    ensures Repeated(n + 1, d) == d + Repeated(n, d)
    decreases n
  {
    if n > 0 {
      RepeatedFront(n - 1, d);
    }
  }

  /** For dt >= 0 a particle never grows more opaque, and its alpha stays non-negative. */
  lemma {:induction false} NeverBrightens(p: Particle, dt: real, n: nat)
    requires dt >= 0.0 && p.alpha >= 0.0
    ensures 0.0 <= Frames(p, dt, n).alpha <= p.alpha
    decreases n
  {
    if n > 0 {
      NeverBrightens(Advance(p, dt), dt, n - 1);
    }
  }

  /**
   * A particle whose lifetime is over by the next frame, and whose alpha is at
   * most n frames of fading, is fully transparent after n frames.
   */
  lemma {:induction false} ExpiredFadesOut(p: Particle, dt: real, n: nat)
    requires dt > 0.0 && p.alpha >= 0.0 && p.lifetime <= dt
    requires p.alpha <= Repeated(n, Scaled(FADE_RATE, dt))
    ensures Frames(p, dt, n).alpha == 0.0
    decreases n
  {
    if n > 0 {
      var f := Scaled(FADE_RATE, dt);
      ScaledNonNegative(FADE_RATE, dt);
      ExpiredFadesOut(Advance(p, dt), dt, n - 1);
    }
  }

  /**
   * A particle whose lifetime runs out within m + 1 frames (a retired one has
   * at most RETIRE_LIFETIME left) and whose alpha is at most n frames of fading
   * is fully transparent after m + n frames, so the pass has erased it by then.
   */
  lemma RetiredFadesOut(p: Particle, dt: real, m: nat, n: nat)
    requires dt > 0.0 && p.alpha >= 0.0
    requires p.lifetime <= Repeated(m + 1, dt)
    requires p.alpha <= Repeated(n, Scaled(FADE_RATE, dt))
    ensures Frames(p, dt, m + n).alpha == 0.0
  {
    FramesCompose(p, dt, m, n);
    AgesBy(p, dt, m);
    NeverBrightens(p, dt, m);
    ExpiredFadesOut(Frames(p, dt, m), dt, n);
  }

  /** Every survivor is the advance of a particle that was there: its lifetime dropped by exactly dt. */
  lemma {:induction false} StepAllSurvivors(ps: seq<Particle>, dt: real)
    ensures forall i :: 0 <= i < |StepAll(ps, dt)| ==>
              exists j :: 0 <= j < |ps| && StepAll(ps, dt)[i] == Advance(ps[j], dt)
    decreases |ps|
  {
    if ps != [] {
      var front := ps[..|ps| - 1];
      StepAllSurvivors(front, dt);
      var r := StepAll(ps, dt);
      forall i | 0 <= i < |r|
        ensures exists j :: 0 <= j < |ps| && r[i] == Advance(ps[j], dt)
      {
        var rest := StepAll(front, dt);
        assert r == if Advance(ps[|ps| - 1], dt).alpha > 0.0 then rest + [Advance(ps[|ps| - 1], dt)] else rest;
        if i < |rest| {
          assert r[i] == rest[i];
          var j :| 0 <= j < |front| && StepAll(front, dt)[i] == Advance(front[j], dt);
          assert ps[j] == front[j];
          assert r[i] == Advance(ps[j], dt);
        } else {
          var j := |ps| - 1;
          assert r[i] == Advance(ps[j], dt);
        }
      }
    } else {
      assert StepAll(ps, dt) == [];
    }
  }

  /** With dt >= 0 the pass keeps every particle well formed. */
  lemma {:induction false} StepAllOk(ps: seq<Particle>, dt: real)
    requires AllOk(ps) && dt >= 0.0
    ensures AllOk(StepAll(ps, dt))
    decreases |ps|
  {
    if ps != [] {
      var front := ps[..|ps| - 1];
      assert AllOk(front);
      StepAllOk(front, dt);
      var p := ps[|ps| - 1];
      assert ParticleOk(p);
      var q := Advance(p, dt);
      assert q.alpha > 0.0 ==> ParticleOk(q);
      var rest := StepAll(front, dt);
      var r := StepAll(ps, dt);
      assert r == if q.alpha > 0.0 then rest + [q] else rest;
      forall i | 0 <= i < |r|
        ensures ParticleOk(r[i])
      {
        if i < |rest| {
          assert r[i] == rest[i];
        }
      }
    }
  }
}
