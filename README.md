# Bug swarm kinematics of the raycast-test Canvas

The `Canvas` component of raycast-test draws a swarm of instanced "bug" sprites.
At start-up, `createBugs` spawns `NUM_BUGS` bugs from a seeded Mersenne Twister. Each bug
gets a position in a square of side `BUG_SPAWN_RANGE` and a horizontal velocity of
speed below `MAX_SPEED`. Every animation frame, `render` moves each bug by its velocity.
A bug that leaves the square on x or z is put back on the opposite edge (a hard
reset, not a modulo). The frame then writes each instance's transform, with the
heading `totalTime + i`, and only after that does it advance `totalTime` by
`elapsedTime * 0.0005`. `onPointerMove` converts the mouse position to normalised
device coordinates for the ray caster.

The project models this logic in five modules:

- `Vector`: the part of three.js's `Vector3` that the swarm uses, over exact reals.
- `Motion`: the wrap rule, one bug's step, one frame of the swarm, the instance
  transforms a frame writes, the time accumulation, and runs of many frames, with
  the invariants they keep.
- `Spawning`: how the generator's draws become positions and velocities, and the
  ranges they land in.
- `Pointer`: the pixel to device-coordinate conversion, its inverse and its corner cases.
- `CanvasComponent`: the class `Canvas`. Its fields are the bug arrays, the instance
  transforms, `totalTime` and `pointer`. Its methods `CreateBugs`, `Render` and
  `OnPointerMove` update them in place and are proved against the functions above.

The generator is foreign code, so `CreateBugs` takes its output as a sequence of
draws, each in [0, 1). `Vector3.normalize` is also foreign code. It is a
parameter, and the model relies only on this stated property: the result's
length is at most one, and a horizontal direction stays horizontal.
Speed bounds are stated on squared lengths.

What the code does, as modelled:

- Each bug takes six draws, in the order position x, y, z, then direction x, z, then
  speed. Velocity y is the constant 0 and takes no draw.
- Every draw is below one, so spawn ranges are half-open: x and z lie in [-R/2, R/2),
  y in [2, 3), and the speed is at most MAX_SPEED, strictly below it when MAX_SPEED
  is positive.
- The code validates neither its constants nor `elapsedTime`; every input is accepted.
- A direction of zero length gets no special treatment. Its normalisation is left to
  the foreign normaliser.
- Hover detection only logs the hovered instance; nothing returns it.

## Model

| member | source | states |
|---|---|---|
| `Motion.WrapAxis` | src/js/components/Canvas/index.js:266-272 | after the wrap, a coordinate lies in [-R/2, R/2] whatever its value before; a coordinate already in that range is left unchanged |
| `Motion.WrapIsHardReset` | src/js/components/Canvas/index.js:267-270 | every coordinate past the upper edge, by any amount, lands exactly on -R/2, and every coordinate past the lower edge lands exactly on R/2 |
| `Motion.WrapIsNotModulo` | src/js/components/Canvas/index.js:267-270 | an overshoot by less than a full range does not land where a modulo wrap would put it |
| `Motion.WrapKeepsEdges` | src/js/components/Canvas/index.js:267-270 | the strict comparisons leave the values R/2 and -R/2 themselves unchanged |
| `Motion.Step` | src/js/components/Canvas/index.js:263-272 | a moved bug's x and z lie on the closed square; y changes by exactly velocity.y and is never wrapped; an x or z whose sum p + v stays in range ends as that sum |
| `Motion.Advance` | src/js/components/Canvas/index.js:261-280 | one frame moves each bug i by its own velocity i; velocities, the number of bugs and their order are unchanged |
| `Motion.AdvanceKeepsContained` | src/js/components/Canvas/index.js:261-272 | one frame preserves the swarm invariant (x and z in the square, y in [2, 3), horizontal velocities within the speed bound), for any velocity size |
| `Motion.Frame` | src/js/components/Canvas/index.js:274-280 | the transform written for bug i holds its post-move position and the heading `totalTime + i` |
| `Motion.Accumulate` | src/js/components/Canvas/index.js:284 | a frame with non-negative elapsed time never decreases the animation time |
| `Motion.Frames` | src/js/components/Canvas/index.js:255-287 | a run of frames writes one set of transforms per elapsed time, each holding one transform per bug |
| `Motion.FramesHeading` | src/js/components/Canvas/index.js:263-284 | in frame j of a run, bug i is drawn where j + 1 frames of motion put it, with the heading `t0 + 0.0005 * (es[0] + ... + es[j-1]) + i`; a frame's own elapsed time never enters its own headings |
| `Motion.TimeAfterIsScaledSum` | src/js/components/Canvas/index.js:284 | over any sequence of frames, the animation time grows by 0.0005 times the sum of the elapsed times |
| `Motion.Run` | src/js/components/Canvas/index.js:255-287 | after any number of frames, the number of bugs, their index alignment and every velocity are unchanged |
| `Motion.RunKeepsContained` | src/js/components/Canvas/index.js:261-272 | after any number of frames, every bug's x and z are still in [-R/2, R/2] |
| `Motion.RunKeepsHeight` | src/js/components/Canvas/index.js:214 | a bug with zero vertical velocity keeps its height across any number of frames |
| `Motion.StillSwarmStaysPut` | src/js/components/Canvas/index.js:263-272 | a contained swarm with zero velocities is left unchanged by any number of frames |
| `Vector.Add` | src/js/components/Canvas/index.js:263 | adding the zero vector changes nothing, on either side |
| `Vector.Scale` | src/js/components/Canvas/index.js:218 | scaling by zero, or scaling the zero vector, gives the zero vector; scaling by one changes nothing |
| `Vector.SqLength` | src/js/components/Canvas/index.js:218 | a squared length is never negative |
| `Vector.ScaleSqLength` | src/js/components/Canvas/index.js:218 | scaling a vector by k multiplies its squared length by k squared |
| `Vector.ScaledUnitWithin` | src/js/components/Canvas/index.js:218 | a vector of length at most one, scaled by a factor in [0, m], has length at most m, and strictly less when the factor is below m |
| `Spawning.SpawnCoordinate` | src/js/components/Canvas/index.js:205-207 | a draw in [0, 1) becomes a coordinate in [-R/2, R/2) |
| `Spawning.SpawnPosition` | src/js/components/Canvas/index.js:204-208 | an initial position has x and z in [-R/2, R/2) and y in [2, 3) |
| `Spawning.SpawnVelocity` | src/js/components/Canvas/index.js:212-218 | an initial velocity is horizontal; its length is at most MAX_SPEED, and strictly below it when MAX_SPEED is positive; it is zero when MAX_SPEED is zero |
| `Spawning.BugPosition` | src/js/components/Canvas/index.js:204-208 | bug i's position, from draws 6i to 6i+2, has x and z on the square and y in [2, 3) |
| `Spawning.BugVelocity` | src/js/components/Canvas/index.js:212-218 | bug i's velocity, from draws 6i+3 to 6i+5, is horizontal and no longer than MAX_SPEED |
| `Spawning.Spawn` | src/js/components/Canvas/index.js:201-219 | exactly n bugs are spawned; bug i takes its position from draws 6i to 6i+2 and its velocity from draws 6i+3 to 6i+5 |
| `Spawning.SpawnDependsOnPrefix` | src/js/components/Canvas/index.js:201-219 | two draw sequences that agree on their first 6n values spawn identical swarms |
| `Spawning.SpawnIsContained` | src/js/components/Canvas/index.js:204-218 | a spawned swarm satisfies the invariant that every frame preserves, and x and z are strictly below R/2 |
| `Spawning.MotionlessSwarm` | src/js/components/Canvas/index.js:217-218 | with MAX_SPEED zero, the spawned swarm never moves, over any number of frames |
| `Pointer.ToNdc` | src/js/components/Canvas/index.js:240-241 | a pointer inside the window maps to x and y in [-1, 1] |
| `Pointer.FromNdc` | src/js/components/Canvas/index.js:240-241 | device coordinates in [-1, 1] map back to a pixel inside the window |
| `Pointer.NdcRoundTrip` | src/js/components/Canvas/index.js:240-241 | the conversion can be inverted: no pointer position is lost |
| `Pointer.NdcCorners` | src/js/components/Canvas/index.js:240-241 | the top-left pixel maps to (-1, 1) and the bottom-right pixel maps to (1, -1) |
| `Pointer.NdcOrientation` | src/js/components/Canvas/index.js:240-241 | x grows to the right; y is flipped and shrinks downwards |
| `CanvasComponent.Unturned` | src/js/components/Canvas/index.js:222-226 | each instance's first transform is at its bug's position, with no rotation |
| `CanvasComponent.Canvas.constructor` | src/js/components/Canvas/index.js:20-50 | the object starts with no bugs, time zero and the pointer at the origin, and the invariant holds |
| `CanvasComponent.Canvas.CreateBugs` | src/js/components/Canvas/index.js:200-227 | the arrays are filled with the NUM_BUGS bugs that `Spawn` gives for the generator's draws; each instance is placed unturned at its bug; the invariant holds |
| `CanvasComponent.Canvas.Render` | src/js/components/Canvas/index.js:255-287 | the positions become one `Advance` of the old swarm; velocities are unchanged; the instances become the `Frame` of the old swarm at the old time; the time grows by `elapsedTime * 0.0005`; the invariant is kept |
| `CanvasComponent.Canvas.OnPointerMove` | src/js/components/Canvas/index.js:237-242 | the pointer becomes the device coordinates of the event's position for the current window size |

## Left out

- Scene, camera, renderer, light, orbit controls (`controls.update`), `renderer.render`: three.js calls with no logic of their own.
- The instanced mesh's matrices: the model keeps only what is fed to `setMatrixAt`, a position and a heading about the vertical axis. Scale is always 1.
- Ray casting and hover reporting (src/js/components/Canvas/index.js:290-295): handled by `Raycaster.intersectObject`, and the only effect is a console message.
- Shader fetching, `onBeforeCompile` uniforms, including the `time` uniform set from `totalTime`, texture and GLTF loading, `loadAssets`, `createMesh`, dat.GUI: asynchronous I/O and rendering setup.
- The Mersenne Twister and its seed: foreign code. The model takes the draws it produces, as a sequence of values in [0, 1).
- `Vector3.normalize`: foreign code. It is a parameter with a stated bound, so its result for a zero-length direction is not modelled.
- `raf_`, `onResize`, `onTouchMove` and src/js/index.js: event and timer wiring. `raf_` only computes the delta passed as `elapsedTime`.
- IEEE-754 doubles: coordinates and times are exact reals, so rounding, infinities and NaN are not modelled.
- `CanvasComponent.Canvas.OnPointerMove` and `Pointer.ToNdc`: require a window of positive width and height. A zero-sized window would produce infinities or NaN, which reals do not have.
- `CanvasComponent.Canvas.CreateBugs`: requires the constructor's empty arrays, since `init` calls it once. The pushes onto those arrays are modelled as filling freshly allocated arrays of `NUM_BUGS` entries.
