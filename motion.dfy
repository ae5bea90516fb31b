/** The per-frame motion of the bug swarm: each bug moves by its velocity, its x and z
  * coordinates wrap to the opposite edge of the spawn square, and the accumulated
  * animation time advances by a fixed fraction of the frame's elapsed time. */
module Motion {
  import opened Vector

  /** Factor from a frame's elapsed time to the accumulated animation time. */
  const TIME_SCALE: real := 0.0005

  /** A horizontal coordinate lies on the closed square of side `range` around the origin. */
  predicate InBounds(c: real, range: real)
  {
    -range / 2.0 <= c <= range / 2.0
  }

  /** The edge rule for one horizontal axis, applied after a move. */
  function WrapAxis(c: real, range: real): (r: real)
    ensures range >= 0.0 ==> InBounds(r, range)
    ensures InBounds(c, range) ==> r == c
  {
    if c > range / 2.0 then -range / 2.0
    else if c < -range / 2.0 then range / 2.0
    else c
  }

  /** The wrap is a hard reset onto the opposite edge: a coordinate past an edge, by any
    * amount, lands exactly on the other edge. */
  lemma WrapIsHardReset(range: real)
    requires range >= 0.0
    ensures forall c :: c > range / 2.0 ==> WrapAxis(c, range) == -range / 2.0
    ensures forall c :: c < -range / 2.0 ==> WrapAxis(c, range) == range / 2.0
  {
  }

  /** It is not a modulo: an overshoot by less than a full range would land that far inside
    * the opposite edge under a modulo wrap, but lands on the edge itself. */
  lemma WrapIsNotModulo(range: real, over: real)
    requires range > 0.0 && 0.0 < over < range
    ensures WrapAxis(range / 2.0 + over, range) != range / 2.0 + over - range
    ensures WrapAxis(-range / 2.0 - over, range) != -range / 2.0 - over + range
  {
  }

  /** The edges themselves are kept: both comparisons are strict. */
  lemma WrapKeepsEdges(range: real)
    requires range >= 0.0
    ensures WrapAxis(range / 2.0, range) == range / 2.0
    ensures WrapAxis(-range / 2.0, range) == -range / 2.0
  {
  }

  /** One bug's move in a frame: displaced by its velocity, then x and z wrapped; y is never wrapped. */
  function Step(p: Vec3, v: Vec3, range: real): (r: Vec3)
    ensures range >= 0.0 ==> InBounds(r.x, range) && InBounds(r.z, range)
    ensures r.y == p.y + v.y
    ensures InBounds(p.x + v.x, range) ==> r.x == p.x + v.x
    ensures InBounds(p.z + v.z, range) ==> r.z == p.z + v.z
  {
    var moved := Add(p, v);
    Vec3(WrapAxis(moved.x, range), moved.y, WrapAxis(moved.z, range))
  }

  /** The simulator's kinematic state: index-aligned positions and velocities, one pair per bug. */
  datatype Swarm = Swarm(positions: seq<Vec3>, velocities: seq<Vec3>)

  predicate Aligned(s: Swarm)
  {
    |s.positions| == |s.velocities|
  }

  /** What holds of every bug from initialisation on: x and z inside the square, y in
    * the spawn band [2, 3), a horizontal velocity whose length is at most `maxSpeed`. */
  predicate Contained(s: Swarm, range: real, maxSpeed: real)
  {
    Aligned(s)
    && (forall i :: 0 <= i < |s.positions| ==>
          InBounds(s.positions[i].x, range) && InBounds(s.positions[i].z, range)
          && 2.0 <= s.positions[i].y < 3.0)
    && (forall i :: 0 <= i < |s.velocities| ==>
          s.velocities[i].y == 0.0 && SqLength(s.velocities[i]) <= maxSpeed * maxSpeed)
  }

  /** One frame of the swarm: every bug steps by its own velocity; velocities, the number
    * of bugs and their order are unchanged. The displacement does not depend on the
    * frame's elapsed time. */
  function Advance(s: Swarm, range: real): (r: Swarm)
    requires Aligned(s)
    ensures Aligned(r) && |r.positions| == |s.positions| && r.velocities == s.velocities
    ensures forall i :: 0 <= i < |s.positions| ==>
              r.positions[i] == Step(s.positions[i], s.velocities[i], range)
  {
    Swarm(seq(|s.positions|, i requires 0 <= i < |s.positions| =>
                Step(s.positions[i], s.velocities[i], range)),
          s.velocities)
  }

  /** A frame keeps the swarm contained, whatever the velocities' size. */
  lemma AdvanceKeepsContained(s: Swarm, range: real, maxSpeed: real)
    requires range >= 0.0 && Contained(s, range, maxSpeed)
    ensures Contained(Advance(s, range), range, maxSpeed)
  {
  }

  /** The transform the renderer receives for one bug instance. */
  datatype Placement = Placement(position: Vec3, yaw: real)

  /** The instance transforms a frame writes: each bug's new position, turned about the
    * vertical axis by the animation time as it was before the frame, plus the bug's index. */
  function Frame(s: Swarm, totalTime: real, range: real): (r: seq<Placement>)
    requires Aligned(s)
    ensures |r| == |s.positions|
    ensures forall i :: 0 <= i < |r| ==>
              r[i].position == Advance(s, range).positions[i] && r[i].yaw == totalTime + i as real
  {
    var next := Advance(s, range);
    seq(|s.positions|, i requires 0 <= i < |s.positions| => Placement(next.positions[i], totalTime + i as real))
  }

  /** The animation time after a frame of the given elapsed time. */
  function Accumulate(totalTime: real, elapsed: real): (r: real)
    ensures elapsed >= 0.0 ==> r >= totalTime
  {
    totalTime + elapsed * TIME_SCALE
  }

  function Sum(es: seq<real>): (r: real)
    ensures (forall i :: 0 <= i < |es| ==> es[i] >= 0.0) ==> r >= 0.0
  {
    if es == [] then 0.0 else es[0] + Sum(es[1..])
  }

  /** The animation time after a run of frames with the given elapsed times. */
  function TimeAfter(totalTime: real, es: seq<real>): (r: real)
    decreases |es|
  {
    if es == [] then totalTime else TimeAfter(Accumulate(totalTime, es[0]), es[1..])
  }

  /** Over any run of frames the animation time grows by the scaled sum of the elapsed
    * times, so it is reproducible from the sequence of elapsed times alone. */
  lemma {:induction false} TimeAfterIsScaledSum(totalTime: real, es: seq<real>)
    ensures TimeAfter(totalTime, es) == totalTime + TIME_SCALE * Sum(es)
    decreases |es|
  {
    if es != [] {
      TimeAfterIsScaledSum(Accumulate(totalTime, es[0]), es[1..]);
    }
  }

  /** The swarm after `k` frames. */
  function Run(s: Swarm, range: real, k: nat): (r: Swarm)
    requires Aligned(s)
    ensures Aligned(r) && |r.positions| == |s.positions| && r.velocities == s.velocities
    decreases k
  {
    if k == 0 then s else Run(Advance(s, range), range, k - 1)
  }

  /** After any number of frames the swarm is still contained. */
  lemma {:induction false} RunKeepsContained(s: Swarm, range: real, maxSpeed: real, k: nat)
    requires range >= 0.0 && Contained(s, range, maxSpeed)
    ensures Contained(Run(s, range, k), range, maxSpeed)
    decreases k
  {
    if k > 0 {
      AdvanceKeepsContained(s, range, maxSpeed);
      RunKeepsContained(Advance(s, range), range, maxSpeed, k - 1);
    }
  }

  /** A bug with a horizontal velocity never changes height, over any number of frames. */
  lemma {:induction false} RunKeepsHeight(s: Swarm, range: real, k: nat, i: nat)
    requires Aligned(s) && i < |s.positions| && s.velocities[i].y == 0.0
    ensures Run(s, range, k).positions[i].y == s.positions[i].y
    decreases k
  {
    if k > 0 {
      RunKeepsHeight(Advance(s, range), range, k - 1, i);
    }
  }

  /** A contained swarm whose velocities are all zero stays where it is, frame after frame. */
  lemma {:induction false} StillSwarmStaysPut(s: Swarm, range: real, k: nat)
    requires range >= 0.0 && Aligned(s)
    requires forall i :: 0 <= i < |s.positions| ==> InBounds(s.positions[i].x, range) && InBounds(s.positions[i].z, range)
    requires forall i :: 0 <= i < |s.velocities| ==> s.velocities[i] == Zero
    ensures Run(s, range, k) == s
    decreases k
  {
    if k > 0 {
      assert Advance(s, range).positions == s.positions;
      StillSwarmStaysPut(Advance(s, range), range, k - 1);
    }
  }

  /** The instance transforms written by a run of frames with the given elapsed times, one
    * sequence per frame: each frame writes `Frame` of the swarm and of the time it finds,
    * then hands the moved swarm and the accumulated time to the next frame. */
  function Frames(s: Swarm, totalTime: real, es: seq<real>, range: real): (r: seq<seq<Placement>>)
    requires Aligned(s)
    ensures |r| == |es|
    ensures forall j :: 0 <= j < |r| ==> |r[j]| == |s.positions|
    decreases |es|
  {
    if es == [] then []
    else [Frame(s, totalTime, range)] + Frames(Advance(s, range), Accumulate(totalTime, es[0]), es[1..], range)
  }

  /** In frame j of a run, bug i is drawn where j + 1 frames of motion put it, with the
    * heading `t0 + 0.0005 * (es[0] + ... + es[j-1]) + i`: a frame's own elapsed time
    * enters only the headings of the frames after it. */
  lemma {:induction false} FramesHeading(s: Swarm, totalTime: real, es: seq<real>, range: real, j: nat, i: nat)
    requires Aligned(s) && j < |es| && i < |s.positions|
    ensures Frames(s, totalTime, es, range)[j][i].position == Run(s, range, j + 1).positions[i]
    ensures Frames(s, totalTime, es, range)[j][i].yaw == totalTime + TIME_SCALE * Sum(es[..j]) + i as real
    decreases j
  {
    if j > 0 {
      FramesHeading(Advance(s, range), Accumulate(totalTime, es[0]), es[1..], range, j - 1, i);
      assert es[..j][1..] == es[1..][..j - 1];
    }
  }
}
