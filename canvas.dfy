/** The Canvas component: the object that owns the bug swarm's arrays, the per-instance
  * transforms handed to the renderer, the accumulated animation time and the pointer. */
module CanvasComponent {
  import opened Vector
  import opened Motion
  import opened Spawning
  import opened Pointer

  /** Number of bug instances. */
  const NUM_BUGS: nat := 10
  /** Side of the square, centred on the origin, that the bugs spawn in and wrap around. */
  const BUG_SPAWN_RANGE: real := 20.0
  /** Upper bound of a bug's per-frame speed; a bug spawned with `MAX_SPEED > 0` is strictly slower. */
  const MAX_SPEED: real := 0.02

  /** The transforms written when the bugs are created: each at its position, not yet turned. */
  function Unturned(positions: seq<Vec3>): (r: seq<Placement>)
    ensures |r| == |positions|
    ensures forall i :: 0 <= i < |r| ==> r[i].position == positions[i] && r[i].yaw == 0.0
  {
    seq(|positions|, i requires 0 <= i < |positions| => Placement(positions[i], 0.0))
  }

  class Canvas {
    /** Each bug's position, updated in place every frame. */
    var bugPositions: array<Vec3>
    /** Each bug's constant per-frame displacement. */
    var bugVelocities: array<Vec3>
    /** The instanced mesh's per-instance transforms, as position and heading. */
    var instances: array<Placement>
    /** Accumulated animation time, in scaled units. */
    var totalTime: real
    /** The last pointer position, in normalised device coordinates. */
    var pointer: Ndc

    /** The object invariant: separate, index-aligned arrays whose bugs are contained. */
    ghost predicate Valid()
      reads this, bugPositions, bugVelocities
    {
      bugPositions != bugVelocities
      && bugPositions.Length == bugVelocities.Length == instances.Length
      && Contained(Bugs(), BUG_SPAWN_RANGE, MAX_SPEED)
    }

    /** The swarm as a value. */
    function Bugs(): (s: Swarm)
      reads this, bugPositions, bugVelocities
      ensures |s.positions| == bugPositions.Length && |s.velocities| == bugVelocities.Length
    {
      Swarm(bugPositions[..], bugVelocities[..])
    }

    /** An empty scene: no bugs, time zero, pointer at the origin. */
    constructor ()
      ensures Valid()
      ensures bugPositions.Length == 0 && instances.Length == 0
      ensures totalTime == 0.0 && pointer == Ndc(0.0, 0.0)
    {
      bugPositions := new Vec3[0];
      bugVelocities := new Vec3[0];
      instances := new Placement[0];
      totalTime := 0.0;
      pointer := Ndc(0.0, 0.0);
    }

    /** Creates the swarm, consuming six generator draws per bug, and places each instance
      * unturned at its bug's position. Called once, on the constructor's empty arrays. */
    method CreateBugs(draws: seq<real>, normalize: Vec3 -> Vec3)
      requires Valid() && bugPositions.Length == 0
      requires |draws| >= 6 * NUM_BUGS && IsDraws(draws) && IsNormalizer(normalize)
      modifies this`bugPositions, this`bugVelocities, this`instances
      ensures Valid()
      ensures fresh(bugPositions) && fresh(bugVelocities) && fresh(instances)
      ensures Bugs() == Spawn(draws, NUM_BUGS, BUG_SPAWN_RANGE, MAX_SPEED, normalize)
      ensures instances[..] == Unturned(bugPositions[..])
    {
      ghost var spawned := Spawn(draws, NUM_BUGS, BUG_SPAWN_RANGE, MAX_SPEED, normalize);
      var positions := new Vec3[NUM_BUGS];
      var velocities := new Vec3[NUM_BUGS];
      var mesh := new Placement[NUM_BUGS];
      var next := 0;  // draws taken from the generator so far
      for i := 0 to NUM_BUGS
        invariant next == 6 * i
        invariant forall k :: 0 <= k < i ==>
                    positions[k] == spawned.positions[k] && velocities[k] == spawned.velocities[k]
                    && mesh[k] == Placement(positions[k], 0.0)
      {
        var pos := SpawnPosition(draws[next], draws[next + 1], draws[next + 2], BUG_SPAWN_RANGE);
        positions[i] := pos;
        var vel := SpawnVelocity(draws[next + 3], draws[next + 4], draws[next + 5], MAX_SPEED, normalize);
        velocities[i] := vel;
        assert pos == BugPosition(draws, i, BUG_SPAWN_RANGE) && vel == BugVelocity(draws, i, MAX_SPEED, normalize);
        mesh[i] := Placement(pos, 0.0);
        next := next + 6;
      }
      bugPositions, bugVelocities, instances := positions, velocities, mesh;
      assert bugPositions[..] == spawned.positions;
      assert bugVelocities[..] == spawned.velocities;
      assert instances[..] == Unturned(bugPositions[..]);
      SpawnIsContained(draws, NUM_BUGS, BUG_SPAWN_RANGE, MAX_SPEED, normalize);
    }

    /** One animation frame: every bug moves by its velocity and wraps on x and z, its
      * instance is placed at the new position with the heading `totalTime + i`, and only
      * then does the animation time advance by the frame's scaled elapsed time. */
    method Render(elapsedTime: real)
      requires Valid()
      modifies bugPositions, instances, this`totalTime
      ensures Valid()
      ensures Bugs() == Advance(old(Bugs()), BUG_SPAWN_RANGE)
      ensures instances[..] == Frame(old(Bugs()), old(totalTime), BUG_SPAWN_RANGE)
      ensures totalTime == Accumulate(old(totalTime), elapsedTime)
    {
      ghost var before := Bugs();
      var i := 0;
      while i < instances.Length
        invariant 0 <= i <= instances.Length
        invariant totalTime == old(totalTime)
        invariant bugVelocities[..] == before.velocities
        invariant forall k :: 0 <= k < i ==>
                    bugPositions[k] == Step(before.positions[k], before.velocities[k], BUG_SPAWN_RANGE)
                    && instances[k] == Placement(bugPositions[k], totalTime + k as real)
        invariant forall k :: i <= k < bugPositions.Length ==> bugPositions[k] == before.positions[k]
      {
        bugPositions[i] := Add(bugPositions[i], bugVelocities[i]);
        bugPositions[i] := bugPositions[i].(x := WrapAxis(bugPositions[i].x, BUG_SPAWN_RANGE));
        bugPositions[i] := bugPositions[i].(z := WrapAxis(bugPositions[i].z, BUG_SPAWN_RANGE));
        instances[i] := Placement(bugPositions[i], totalTime + i as real);
        i := i + 1;
      }
      assert bugPositions[..] == Advance(before, BUG_SPAWN_RANGE).positions;
      assert instances[..] == Frame(before, totalTime, BUG_SPAWN_RANGE);
      AdvanceKeepsContained(before, BUG_SPAWN_RANGE, MAX_SPEED);
      totalTime := totalTime + elapsedTime * TIME_SCALE;
    }

    /** Records the pointer in device coordinates, for a window of the given size. */
    method OnPointerMove(event: ClientPoint, width: real, height: real)
      requires width > 0.0 && height > 0.0
      modifies this`pointer
      ensures pointer == ToNdc(event, width, height)
    {
      pointer := Ndc((event.x / width) * 2.0 - 1.0, -(event.y / height) * 2.0 + 1.0);
    }
  }
}
