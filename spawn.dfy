/** Creation of the swarm from a stream of pseudo-random draws. The generator itself
  * (a Mersenne Twister with a fixed seed) is foreign code: the model receives the
  * draws it produces, in order, each in [0, 1). */
module Spawning {
  import opened Vector
  import opened Motion

  /** Every draw of the generator lies in [0, 1). */
  predicate IsDraws(draws: seq<real>)
  {
    forall i :: 0 <= i < |draws| ==> 0.0 <= draws[i] < 1.0
  }

  /** What the model relies on of the foreign `Vector3.normalize`: its result is no longer
    * than one, and a direction in the horizontal plane stays in it. */
  ghost predicate IsNormalizer(normalize: Vec3 -> Vec3)
  {
    forall v :: SqLength(normalize(v)) <= 1.0 && (v.y == 0.0 ==> normalize(v).y == 0.0)
  }

  /** A draw mapped onto [-range/2, range/2). */
  function SpawnCoordinate(u: real, range: real): (c: real)
    ensures 0.0 <= u < 1.0 && range > 0.0 ==> -range / 2.0 <= c < range / 2.0
  {
    CenteredRange(u, range);
    (u * 2.0 - 1.0) * (range / 2.0)
  }

  lemma CenteredRange(u: real, range: real)
    ensures 0.0 <= u < 1.0 && range > 0.0 ==> -range / 2.0 <= (u * 2.0 - 1.0) * (range / 2.0) < range / 2.0
  {
    if 0.0 <= u < 1.0 && range > 0.0 {
      var d, h := u * 2.0 - 1.0, range / 2.0;
      assert -1.0 <= d < 1.0 && h > 0.0;
      assert d * h < 1.0 * h;
      assert -1.0 * h <= d * h;
    }
  }

  /** A bug's initial position from three successive draws: x and z across the spawn
    * square, y in the band [2, 3). */
  function SpawnPosition(ux: real, uy: real, uz: real, range: real): (p: Vec3)
    ensures 0.0 <= ux < 1.0 && 0.0 <= uz < 1.0 && range > 0.0 ==>
              -range / 2.0 <= p.x < range / 2.0 && -range / 2.0 <= p.z < range / 2.0
    ensures 0.0 <= uy < 1.0 ==> 2.0 <= p.y < 3.0
  {
    Vec3(SpawnCoordinate(ux, range), uy * 1.0 + 2.0, SpawnCoordinate(uz, range))
  }

  /** A bug's initial velocity from the next three draws: a horizontal direction, normalised,
    * then scaled by a speed in [0, maxSpeed). */
  function SpawnVelocity(ux: real, uz: real, us: real, maxSpeed: real, normalize: Vec3 -> Vec3): (v: Vec3)
    ensures IsNormalizer(normalize) ==> v.y == 0.0
    ensures IsNormalizer(normalize) && 0.0 <= us < 1.0 && maxSpeed >= 0.0 ==>
              SqLength(v) <= maxSpeed * maxSpeed
    ensures IsNormalizer(normalize) && 0.0 <= us < 1.0 && maxSpeed > 0.0 ==>
              SqLength(v) < maxSpeed * maxSpeed
    ensures maxSpeed == 0.0 ==> v == Zero
  {
    var direction := normalize(Vec3(ux * 2.0 - 1.0, 0.0, uz * 2.0 - 1.0));
    SpeedWithin(direction, us, maxSpeed, normalize);
    Scale(direction, us * maxSpeed)
  }

  lemma SpeedWithin(direction: Vec3, us: real, maxSpeed: real, normalize: Vec3 -> Vec3)
    requires IsNormalizer(normalize) ==> SqLength(direction) <= 1.0
    ensures IsNormalizer(normalize) && 0.0 <= us < 1.0 && maxSpeed >= 0.0 ==>
              SqLength(Scale(direction, us * maxSpeed)) <= maxSpeed * maxSpeed
    ensures IsNormalizer(normalize) && 0.0 <= us < 1.0 && maxSpeed > 0.0 ==>
              SqLength(Scale(direction, us * maxSpeed)) < maxSpeed * maxSpeed
  {
    if IsNormalizer(normalize) && 0.0 <= us < 1.0 && maxSpeed >= 0.0 {
      assert 0.0 <= us * maxSpeed <= maxSpeed;
      assert maxSpeed > 0.0 ==> us * maxSpeed < maxSpeed;
      ScaledUnitWithin(direction, us * maxSpeed, maxSpeed);
    }
  }

  /** Bug i's position: made from draws 6i, 6i+1 and 6i+2. */
  function BugPosition(draws: seq<real>, i: nat, range: real): (p: Vec3)
    requires 6 * i + 6 <= |draws|
    ensures IsDraws(draws) && range > 0.0 ==> InBounds(p.x, range) && InBounds(p.z, range) && 2.0 <= p.y < 3.0
  {
    SpawnPosition(draws[6 * i], draws[6 * i + 1], draws[6 * i + 2], range)
  }

  /** Bug i's velocity: made from draws 6i+3, 6i+4 and 6i+5. */
  function BugVelocity(draws: seq<real>, i: nat, maxSpeed: real, normalize: Vec3 -> Vec3): (v: Vec3)
    requires 6 * i + 6 <= |draws|
    ensures IsDraws(draws) && IsNormalizer(normalize) && maxSpeed >= 0.0 ==>
              v.y == 0.0 && SqLength(v) <= maxSpeed * maxSpeed
  {
    SpawnVelocity(draws[6 * i + 3], draws[6 * i + 4], draws[6 * i + 5], maxSpeed, normalize)
  }

  /** The first `n` bugs, created in index order; bug i consumes draws 6i .. 6i+5, in the
    * order position x, y, z, direction x, z, speed. */
  function Spawn(draws: seq<real>, n: nat, range: real, maxSpeed: real, normalize: Vec3 -> Vec3): (s: Swarm)
    requires |draws| >= 6 * n
    ensures |s.positions| == n && |s.velocities| == n
    ensures forall i: nat :: i < n ==>
              s.positions[i] == BugPosition(draws, i, range)
              && s.velocities[i] == BugVelocity(draws, i, maxSpeed, normalize)
  {
    Swarm(seq(n, i requires 0 <= i < n => BugPosition(draws, i, range)),
          seq(n, i requires 0 <= i < n => BugVelocity(draws, i, maxSpeed, normalize)))
  }

  /** The swarm depends on no draw past the first 6n: two generators that agree on those
    * produce the same swarm (with a fixed seed, every run spawns the same swarm). */
  lemma SpawnDependsOnPrefix(d1: seq<real>, d2: seq<real>, n: nat, range: real, maxSpeed: real, normalize: Vec3 -> Vec3)
    requires |d1| >= 6 * n && |d2| >= 6 * n && d1[..6 * n] == d2[..6 * n]
    ensures Spawn(d1, n, range, maxSpeed, normalize) == Spawn(d2, n, range, maxSpeed, normalize)
  {
    var s1, s2 := Spawn(d1, n, range, maxSpeed, normalize), Spawn(d2, n, range, maxSpeed, normalize);
    forall j | 0 <= j < 6 * n
      ensures d1[j] == d2[j]
    {
      assert d1[..6 * n][j] == d2[..6 * n][j];
    }
    assert s1.positions == s2.positions;
    assert s1.velocities == s2.velocities;
  }

  /** A freshly spawned swarm is contained, with x and z strictly below the upper edge. */
  lemma SpawnIsContained(draws: seq<real>, n: nat, range: real, maxSpeed: real, normalize: Vec3 -> Vec3)
    requires |draws| >= 6 * n && IsDraws(draws)
    requires range > 0.0 && maxSpeed >= 0.0 && IsNormalizer(normalize)
    ensures Contained(Spawn(draws, n, range, maxSpeed, normalize), range, maxSpeed)
    ensures forall i :: 0 <= i < n ==>
              Spawn(draws, n, range, maxSpeed, normalize).positions[i].x < range / 2.0
              && Spawn(draws, n, range, maxSpeed, normalize).positions[i].z < range / 2.0
  {
    var s := Spawn(draws, n, range, maxSpeed, normalize);
    forall i | 0 <= i < n
      ensures InBounds(s.positions[i].x, range) && InBounds(s.positions[i].z, range)
      ensures 2.0 <= s.positions[i].y < 3.0
      ensures s.positions[i].x < range / 2.0 && s.positions[i].z < range / 2.0
      ensures s.velocities[i].y == 0.0 && SqLength(s.velocities[i]) <= maxSpeed * maxSpeed
    {
      assert 0.0 <= draws[6 * i] < 1.0 && 0.0 <= draws[6 * i + 1] < 1.0 && 0.0 <= draws[6 * i + 2] < 1.0;
      assert 0.0 <= draws[6 * i + 5] < 1.0;
    }
  }

  /** With a maximum speed of zero every velocity is the zero vector, so the swarm never moves. */
  lemma MotionlessSwarm(draws: seq<real>, n: nat, range: real, normalize: Vec3 -> Vec3, k: nat)
    requires |draws| >= 6 * n && IsDraws(draws) && range > 0.0
    ensures Run(Spawn(draws, n, range, 0.0, normalize), range, k) == Spawn(draws, n, range, 0.0, normalize)
  {
    var s := Spawn(draws, n, range, 0.0, normalize);
    forall i | 0 <= i < n
      ensures InBounds(s.positions[i].x, range) && InBounds(s.positions[i].z, range)
      ensures s.velocities[i] == Zero
    {
      assert 0.0 <= draws[6 * i] < 1.0 && 0.0 <= draws[6 * i + 2] < 1.0;
    }
    StillSwarmStaysPut(s, range, k);
  }
}
