# WebGL coursework demos, modelled in Dafny

The repository holds four browser WebGL demos. Each is a small program that
fills vertex, colour and index buffers and hands them to the GPU. This
project models the parts of them that compute something, and proves what
those buffers and state variables hold.

- **MP2 terrain** (`Terrain.js`). A `(div+1) x (div+1)` vertex grid is
  built first. Then 200 fault-plane passes raise or lower every height by
  0.0035. Next come two triangles per grid cell, area-weighted vertex
  normals, and a wireframe edge list.
  - `terrain_spec.dfy` (module `TerrainSpec`) defines each buffer as a
    function of the inputs and proves what it holds.
  - `terrain.dfy` (module `TerrainMesh`) is the `Terrain` class. Its
    methods fill `seq` fields in loops, and each is proved to leave exactly
    the specified buffer.
- **MP2 flight controls** (`mp2.js`, module `Flight`): the pressed-key map,
  the speed keys and their clamp, roll and pitch from the arrow keys, the
  move along the view direction, and the push/pop balance of `draw`.
- **MP4 particles**.
  - Module `Particles` (`Particle.js`): the Euler step with the box
    bounce.
  - Module `ParticleScene` (`mp4.js`): the particle list (add, reset,
    update, burst) and `draw`.
  - Module `HexColor` (`mp4.js`): `cutHex` and `hexToR/G/B`. These are
    built on a model of JavaScript's `charAt`, `substring` and
    `parseInt(_, 16)`.
- **Model-view matrix stack** (module `MatrixStack`). `mp2.js` and `mp4.js`
  share the same stack. Matrices are an opaque type parameter `M`, so a
  copy of a matrix is the matrix itself.
- **MP1 animations** (`mp1.js`, module `LogoBall`): the logo and
  ball buffers, the colour gradient, the wall detection and move of the
  bouncing ball, the rebound on the next frame, the frame counter, and
  `switchAnimation`.
- **MP3 skybox** (`skybox.js`, module `Skybox`): the cube's corner buffer,
  the index buffer flattened from the face table, and the counts.

Inputs the programs draw from outside are parameters of the methods that
use them:

- `Math.random()` samples are reals in `[0, 1)`, or the fault cut's point
  and direction.
- The inverse square root in `vec3.normalize` and in the ball's speed is a
  function `invSqrt`. Lemmas state what follows when it is exact.
- The drag factor `Math.pow(1 - drag, step)` is the real `k`.
- The quaternion rotations of the flight demo are a function `rotate`.
- The cosine and sine of the ball's rim angles are a function `rim`.
- The matrix placements of `draw` are a function `place`.

JavaScript numbers are modelled as mathematical reals, with no rounding.

## Model

| member | source | states |
|---|---|---|
| TerrainSpec.GridVertices | MP2/Terrain.js:163-175 | the grid loop leaves `3*(div+1)^2` position entries |
| TerrainSpec.GridVertexAt | MP2/Terrain.js:160-173 | vertex `i*(div+1)+j` of the grid is `(minX+deltaX*j, minY+deltaY*i, 0)` |
| TerrainSpec.GridRowsAt | MP2/Terrain.js:163-172 | after `i` rows, every earlier row's vertices sit at their grid points |
| TerrainSpec.PassPrefixAt | MP2/Terrain.js:211-218 | during one fault pass, the vertices already visited are moved by the pass and the rest are untouched |
| TerrainSpec.DisplacedAt | MP2/Terrain.js:211-218 | one pass moves every vertex's height by `+delta` on the positive side of the cut and by `-delta` otherwise, even when the dot product is 0, and keeps its x and y |
| TerrainSpec.DisplacedAllAt | MP2/Terrain.js:201-220 | after all passes, x and y are unchanged and the height is within `passes*0.0035` of where it started |
| TerrainSpec.GridFaces | MP2/Terrain.js:179-192 | the face loop emits `6*div^2` indices, that is `2*div^2` triangles |
| TerrainSpec.GridFaceCell | MP2/Terrain.js:179-190 | cell `(i,j)` holds `(vid, vid+1, vid+div+1)` and `(vid+1, vid+div+2, vid+div+1)` at its place in row-major cell order |
| TerrainSpec.GridFacesWellFormed | MP2/Terrain.js:179-190 | every face index is below `(div+1)^2`, and no triangle repeats a corner |
| TerrainSpec.FaceRowsInRange | MP2/Terrain.js:179-190 | the rows emitted so far hold only valid and pairwise distinct corner indices |
| TerrainSpec.AddAtCornersAt | MP2/Terrain.js:247-252 | adding a face normal changes exactly the three corners' normals, each by the face normal |
| TerrainSpec.AccumulatedIsIncidentSum | MP2/Terrain.js:226-253 | after the face loop, each vertex's normal is its start value plus the sum of the unnormalised cross products of the faces that contain it |
| TerrainSpec.AccumulatedStep | MP2/Terrain.js:239-252 | face `t` adds its cross product `(v2-v1) x (v3-v1)` to the vertices it contains and to no other |
| TerrainSpec.NormalizedAt | MP2/Terrain.js:256-260 | the normalise pass rescales the vertices it has visited and leaves the rest alone |
| TerrainSpec.VertexNormalAt | MP2/Terrain.js:225-261 | each final normal is the normalised sum of the cross products of the faces around the vertex |
| TerrainSpec.Edges | MP2/Terrain.js:295-307 | the edge loop emits six indices per triangle |
| TerrainSpec.EdgesAt | MP2/Terrain.js:297-307 | triangle `(a,b,c)` contributes the pairs `(a,b),(b,c),(c,a)` in face order, duplicates kept |
| TerrainSpec.EdgesInRange | MP2/Terrain.js:295-308 | when every face index is below `n`, so is every edge index |
| TerrainSpec.GeneratedVertex | MP2/Terrain.js:158-177 | displacement runs on the grid, so a generated vertex keeps its grid x and y, and its height lies within `200*0.0035` of 0 |
| TerrainSpec.GeneratedEdges | MP2/Terrain.js:295-308 | a generated terrain has `2*|fBuffer|` edge indices, all naming vertices |
| TerrainSpec.GeneratedNormal | MP2/Terrain.js:175-194 | normals are computed from the displaced heights of the generated grid |
| TerrainMesh.Terrain.constructor | MP2/Terrain.js:17-45 | the buffers start empty; `generateTriangles` then `generateLines` leave exactly the generated terrain |
| TerrainMesh.Terrain.SetVertex | MP2/Terrain.js:53-59 | writes the triple at offset `(i*(div+1)+j)*3` and nothing else |
| TerrainMesh.Terrain.GetVertex | MP2/Terrain.js:67-73 | reads the triple at offset `(i*(div+1)+j)*3` |
| Geometry.WithVecAt | MP2/Terrain.js:53-59 | overwriting one vertex's triple leaves every other vertex as it was |
| TerrainMesh.Terrain.GenerateTriangles | MP2/Terrain.js:158-196 | pushes the grid onto the positions and zero normals onto the normals, displaces every vertex in the buffer, pushes the grid's faces after the faces already there, and recomputes the normals over the whole buffers; `numVertices` and `numFaces` are the buffer lengths over 3, so each grows by `(div+1)^2` and `2*div^2`; the faces still index existing vertices |
| TerrainMesh.Terrain.UpdateVertices | MP2/Terrain.js:201-220 | applies the passes in order to the current positions |
| TerrainMesh.Terrain.ApplyCut | MP2/Terrain.js:207-219 | one pass of the height loop |
| TerrainMesh.Terrain.UpdateNormals | MP2/Terrain.js:225-262 | accumulation over `numFaces` faces, then normalisation of `numVertices` vertices; positions and faces untouched |
| TerrainMesh.Terrain.GenerateLines | MP2/Terrain.js:295-309 | appends the edge list of the current faces to `eBuffer` |
| TerrainMesh.GridBuffers | MP2/Terrain.js:163-173 | the nested grid loop pushes the grid after the positions already there, and as many zero triples after the normals |
| TerrainMesh.AppendGridRow | MP2/Terrain.js:164-172 | one pass of the inner grid loop appends one row |
| TerrainMesh.GridFaceBuffer | MP2/Terrain.js:179-190 | the nested face loop pushes the grid faces after the faces already there |
| TerrainSpec.AppendedMeshOk | MP2/Terrain.js:165-190 | faces that index the old vertices, followed by the grid's faces, index the buffer that has the grid's vertices pushed onto it |
| TerrainMesh.AccumulateFaceNormals | MP2/Terrain.js:226-253 | the face loop leaves the accumulated normals |
| TerrainMesh.NormalizeVertices | MP2/Terrain.js:256-260 | the vertex loop normalises every triple |
| Geometry.CrossIsPerpendicular | MP2/Terrain.js:239-244 | the face normal is perpendicular to both edge vectors of its face |
| Geometry.NormalizeIsUnit | MP2/Terrain.js:256-260 | a normal of positive length normalises to unit length when `invSqrt` is exact |
| Geometry.NormalizeUnitIsIdentity | MP2/Terrain.js:256-260 | normalising a unit vector gives it back |
| MatrixStack.Pushed | MP4/mp4.js:134-137 | push grows the stack by one, its top is the current matrix, and the rest is unchanged |
| MatrixStack.Popped | MP4/mp4.js:144-149 | pop of an empty stack fails; otherwise the top is restored and the stack shrinks by one |
| MatrixStack.PopAfterPush | MP4/mp4.js:134-149 | pop after push restores the state exactly |
| MatrixStack.PushChangePop | MP2-2/mp2.js:115-130 | push, change the matrix, pop: the state before the push comes back |
| MatrixStack.ModelView.constructor | MP2-2/mp2.js:25 | the stack starts empty |
| MatrixStack.ModelView.Push | MP2-2/mp2.js:115-118 | `mvPushMatrix` on the stack object |
| MatrixStack.ModelView.Pop | MP2-2/mp2.js:125-130 | `mvPopMatrix`: throws `"Invalid popMatrix!"` with the state unchanged on an empty stack, pops otherwise |
| Particles.Bounce | MP4/Particle.js:57-66 | one axis: clamped into `[-1, 1]`; the velocity is negated and scaled by `bouncing` only when the coordinate was outside, and at most one branch fires |
| Particles.Bounced | MP4/Particle.js:57-66 | the position ends in the box, and each axis is bounced on its own |
| Particles.InsideNoBounce | MP4/Particle.js:57-66 | a position already in the box keeps its position and velocity |
| Particles.OnlyOutsideAxesBounce | MP4/Particle.js:57-66 | an axis inside `[-1, 1]` keeps its coordinate and velocity |
| Particles.UnitInBox | MP4/Particle.js:33-38 | a unit vector, as `vec3.random` gives, lies in the box |
| Particles.Stepped | MP4/mp4.js:395-402 | one update of a particle ends inside the box with gravity as its acceleration |
| Particles.SteppedInside | MP4/mp4.js:395-402 | velocity first, then position, then acceleration: with no bounce, the new position is the old one plus `step` times the new velocity |
| Particles.Particle.constructor | MP4/Particle.js:32-47 | gravity acceleration, radius in `[0.05, 0.10)`, colour components in `[0, 1)` |
| Particles.Particle.UpdatePosition | MP4/Particle.js:52-67 | Euler step `p + step*v`, then the per-axis bounce; the position ends in the box |
| Particles.BounceAxis | MP4/Particle.js:57-66 | one pass of the axis loop bounces that axis and leaves the other two alone |
| Particles.Particle.UpdateVelocity | MP4/Particle.js:72-77 | `v := v*k + step*a` |
| Particles.Particle.UpdateAcceleration | MP4/Particle.js:82-84 | `a := (0, -0.1*gravity, 0)` whatever it was |
| ParticleScene.Scene.constructor | MP4/mp4.js:44-47 | the list starts with one batch of 10 particles, made with the initial gravity 9.8, each with radius `0.05 + 0.05u` and colour `(uR, uG, uB)` from its own draws |
| ParticleScene.Scene.AddParticles | MP4/mp4.js:407-411 | appends exactly 10 new particles, each with the current gravity's acceleration and the radius and colour of its own draws, and leaves the motion and the appearance of the existing ones unchanged |
| ParticleScene.Scene.Reset | MP4/mp4.js:416-418 | the list becomes empty |
| ParticleScene.Scene.Update | MP4/mp4.js:395-402 | every particle takes one step, in list order, and ends in the box; radius and colour stay |
| ParticleScene.StepParticle | MP4/mp4.js:398-400 | one pass of the loop is one `Stepped` frame of that particle; radius and colour stay |
| ParticleScene.Scene.Burst | MP4/mp4.js:423-427 | every particle gets a new velocity of length 2 and keeps its position, acceleration, radius and colour |
| ParticleScene.Draw | MP4/mp4.js:324-353 | one push and one pop per particle: the stack depth is unchanged, and each particle is placed from the look-at matrix |
| HexColor.Substring | MP4/mp4.js:51-54 | `substring` never gives more characters than the string has |
| HexColor.SubstringSlice | MP4/mp4.js:51-54 | with positions in range, `substring` is the slice |
| HexColor.SubstringSwap | MP4/mp4.js:51-54 | `substring(a, b) == substring(b, a)` |
| HexColor.CharAt | MP4/mp4.js:54 | `charAt` gives the character at an in-range position and `""` otherwise |
| HexColor.SpaceEnd | MP4/mp4.js:51-53 | `parseInt` first skips leading white space |
| HexColor.HexEnd | MP4/mp4.js:51-53 | `parseInt` reads the longest run of hex digits |
| HexColor.HexValue | MP4/mp4.js:51-53 | the value of `n` hex digits is below `16^n` |
| HexColor.ParseAllHex | MP4/mp4.js:51-53 | a string of hex digits parses to its base-16 value |
| HexColor.ParseTwoDigits | MP4/mp4.js:51-53 | two hex digits parse to a byte |
| HexColor.ParseStopsAtJunk | MP4/mp4.js:51-53 | parsing stops at the first character that is not a hex digit |
| HexColor.ParseNoDigits | MP4/mp4.js:51-53 | the empty string and a bare `0x` give `NaN` |
| HexColor.ParseNegative | MP4/mp4.js:51-53 | a leading `-` negates the value |
| HexColor.CutHex | MP4/mp4.js:54 | a leading `#` is dropped and at most six characters are kept; any other string is returned unchanged |
| HexColor.ChannelOfDigits | MP4/mp4.js:51-53 | a channel whose two characters are hex digits is their byte value |
| HexColor.HashIsIgnored | MP4/mp4.js:51-54 | `hexToX("#" + h) == hexToX(h)` for every `h` not starting with `#` |
| HexColor.HexChannels | MP4/mp4.js:51-54 | for six hex digits, with or without `#`, the three channels are the bytes of characters `[0,2)`, `[2,4)`, `[4,6)` |
| HexColor.ColorRoundTrip | MP4/mp4.js:51-54 | a `#rrggbb` string built from three bytes reads back as those bytes |
| Flight.KeyDown | MP2-2/mp2.js:462-466 | the key becomes pressed and no other key changes |
| Flight.KeyUp | MP2-2/mp2.js:471-474 | the key becomes released and no other key changes |
| Flight.PressRelease | MP2-2/mp2.js:462-474 | press then release leaves the key up and every other key as it was |
| Flight.Steer | MP2-2/mp2.js:389-392 | roll or pitch is -1, 0 or +1 step; opposite keys cancel |
| Flight.NextSpeed | MP2-2/mp2.js:393-396 | the speed stays in `[0.0005, 0.008]` |
| Flight.SpeedKeysCancel | MP2-2/mp2.js:393-396 | `+` and `-` held together leave the speed unchanged |
| Flight.SpeedUp | MP2-2/mp2.js:393-395 | `+` adds 0.0001 up to the upper clamp |
| Flight.SlowDown | MP2-2/mp2.js:394-396 | `-` subtracts 0.0001 down to the lower clamp |
| Flight.NoArrowsNoTurn | MP2-2/mp2.js:398-408 | with no arrow key down, the view direction and up vector do not turn |
| Flight.Moved | MP2-2/mp2.js:411-413 | the scene moves back by `speed` along the view direction |
| Flight.Controls.constructor | MP2-2/mp2.js:34-80 | the globals' initial values |
| Flight.Controls.HandleKeyDown | MP2-2/mp2.js:462-466 | `handleKeyDown` |
| Flight.Controls.HandleKeyUp | MP2-2/mp2.js:471-474 | `handleKeyUp` |
| Flight.Controls.ReadTurnKeys | MP2-2/mp2.js:385-392 | roll and pitch from the arrow keys |
| Flight.Controls.UpdateSpeed | MP2-2/mp2.js:393-396 | the speed keys and the clamp |
| Flight.Controls.Animate | MP2-2/mp2.js:384-414 | speed in range, roll then pitch, then the move along the new view direction |
| Flight.Draw | MP2-2/mp2.js:354-378 | one push and one pop: the stack depth is unchanged |
| LogoBall.LogoPositions | MP1/mp1.js:446-566 | the logo has 42 + 72 vertex triples |
| LogoBall.LogoColors | MP1/mp1.js:599-605 | 42 orange then 72 blue RGBA colours |
| LogoBall.RepeatAt | MP1/mp1.js:599-605 | every pushed colour is the loop's constant colour |
| LogoBall.BallPositionAt | MP1/mp1.js:572-588 | vertex 0 is the fan centre `(0.08, 0.08, 0)`, and vertex `1+i` is rim point `i`, `(0.25*cos, 0.25*sin, 0)`, for `i` in `0..100` |
| LogoBall.Shade | MP1/mp1.js:614-622 | red plus blue is 1, green is the frame's draw, alpha is 1 |
| LogoBall.RimRedInRange | MP1/mp1.js:614-622 | `r = abs(i-half)/half` and `b = 1-r` are in `[0, 1]` |
| LogoBall.BallColorAt | MP1/mp1.js:611-624 | the centre is opaque white, and rim point `i` gets `Shade(g, i)`: red in `[0, 1]`, blue `1 - red`, green `g`, alpha 1 |
| LogoBall.CountsAgree | MP1/mp1.js:446-624 | both animations have as many colours as position triples: 114 and 102 |
| LogoBall.FirstHitAt | MP1/mp1.js:367-378 | a raised flag names the first vertex that would reach a wall, and the flag is 2 exactly when that vertex reaches it in x (x is tested first), otherwise 1 |
| LogoBall.NoHitFrom | MP1/mp1.js:367-378 | flag 0 means no vertex would reach a wall |
| LogoBall.MoveStaysInside | MP1/mp1.js:367-386 | after a move every vertex's x and y lie strictly between the walls |
| LogoBall.Damping | MP1/mp1.js:348-359 | the bounce factor is in `[0.95, 1.05)` |
| LogoBall.ReboundTurnsRound | MP1/mp1.js:348-359 | flag 1 turns the ball round in y and keeps x, flag 2 turns it round in x and keeps y: the component changes sign and keeps 95% to 105% of its size; flag 0 keeps both |
| LogoBall.BallVelocityLength | MP1/mp1.js:362-364 | the step has length 0.02 whatever the direction, when `invSqrt` is exact |
| LogoBall.NextLogoFrame | MP1/mp1.js:340-342 | a logo frame counter in `0..820` stays in `0..820` |
| LogoBall.Page.constructor | MP1/mp1.js:41-57 | the globals' initial values, then `main`: the logo's buffers and one logo frame, so the counter is 1 |
| LogoBall.Page.GetVertexPositions | MP1/mp1.js:443-592 | the current animation's position buffer; the ball sets `numVertices` to 100 |
| LogoBall.BallBuffer | MP1/mp1.js:573-585 | the ring loop leaves the ball's position buffer |
| LogoBall.Page.GetVertexColors | MP1/mp1.js:597-628 | the current animation's colour buffer |
| LogoBall.Page.AnimateLogo | MP1/mp1.js:233-345 | fresh positions, bent by the warp only in the warp frames; the counter goes to -1 after frame 820 |
| LogoBall.Page.Rebound | MP1/mp1.js:347-360 | a raised flag turns the ball round, recolours it, clears the flag and records the frame |
| LogoBall.Page.DetectWall | MP1/mp1.js:366-378 | the detection loop leaves the first-hit flag |
| LogoBall.Page.MoveBall | MP1/mp1.js:380-386 | every vertex's x and y advance by the step |
| LogoBall.Page.AnimateBall | MP1/mp1.js:346-388 | rebound, then the step, then detection; the ball moves only when no flag was raised, and then stays inside |
| LogoBall.Page.Animate | MP1/mp1.js:233-390 | the animation's step, then `frame += 1`: the logo gets fresh (warped) positions and keeps the ball's state; the ball rebounds, recolours, records the frame and moves or raises a flag, and stays inside after a move; any other animation only counts the frame |
| LogoBall.Page.Start | MP1/mp1.js:407-418 | `setupBuffers("initial")` rebuilds both buffers, then the first `tick()` runs one `animate()` on them |
| LogoBall.Page.SwitchAnimation | MP1/mp1.js:424-435 | no-op for the current animation; otherwise the animation changes, the frame resets to 0, `main` rebuilds both buffers and runs the first frame, so the counter is 1; the wall flag is kept and acted on by the ball's first frame; the logo keeps the vertex count, wall frame and directions; any other name changes nothing but the animation and the counter |
| Skybox.Corners | MP3/skybox.js:49-59 | 24 entries, each coordinate `±width` |
| Skybox.FlattenLength | MP3/skybox.js:90-95 | flattening six index lists of six gives 36 indices |
| Skybox.FlattenFrom | MP3/skybox.js:90-95 | every flattened index comes from one of the faces |
| Skybox.FacesOnTheirPlanes | MP3/skybox.js:50-88 | every face's corners lie on the plane its normal points to, at distance `width` |
| Skybox.SkyIndices | MP3/skybox.js:63-97 | 36 indices, 12 triangles, every index below 8 |
| Skybox.SkyBox.constructor | MP3/skybox.js:10-43 | `width` 15 and `createMesh`: the corners, the flattened faces, `numFaces == fBuffer.length/3 == 12`, `numVertices == vBuffer.length == 24`; `loaded()` is true afterwards |
| Skybox.SkyBox.CreateMesh | MP3/skybox.js:48-105 | the corner literal, the face indices appended in declaration order, the counts 24 and 12, and `isLoaded` set last |
| Skybox.SkyBox.PushAll | MP3/skybox.js:92-94 | the inner loop appends one face's indices in order |

## Left out

- WebGL calls are not modelled: contexts, shaders, uniforms, `loadBuffers`, `drawTriangles`, `drawEdges`, `drawSphere`, the GL part of `setupBuffers` and the extension check. So are the DOM and the event plumbing (`getElementById`, `handleEvent`, `requestAnimationFrame`, `cancelAnimationFrame`, `startup`), `console.log` and `alert`.
- LogoBall.Page.Start: MP1's `main` is modelled from its buffer rebuild through the first `tick()`, which runs one `animate()`. The frames that `requestAnimationFrame` schedules after that are separate `Animate` calls; `draw` is not modelled. LogoBall.Page.constructor and LogoBall.Page.SwitchAnimation end with this `Start`, so the state they ensure is the one after that first frame.
- `updateParameters` (MP4/Particle.js:19-26) reads sliders. The values it last read are parameters instead: gravity, drag and bouncing of the step, and the gravity `addParticles` gives new particles.
- `sphereFromSubdivision` is not part of this model.
- `printBuffers` only writes to the console.
- glMatrix matrices are an opaque type. `lookAt`, `translate`, `scale`, `rotate` and `perspective` appear only as the function `place` in the two `draw` models.
- The MP1 logo's matrix transforms are not modelled (MP1/mp1.js:236-266 and 335-338).
- LogoBall.Page.AnimateLogo: the sine and cosine warps of the logo's top half (MP1/mp1.js:268-333) are one function `warp` applied in the warp frames. Which vertices they bend, and by how much, is not modelled.
- Flight.Turned: the quaternion roll and pitch are a function `rotate(axis, steps, v)`. Only "no arrow keys, no turn" is proved; that the rotation keeps lengths is not.
- `degToRad` is not modelled. Roll and pitch are counted in steps of one degree.
- Floating point: every JavaScript number is a real. Rounding, `NaN` from `sqrt` of 0, and `Infinity` are not modelled. For example, `speed + 0.0001 - 0.0001` is exact here.
- The square root in `vec3.normalize` and in the ball's step is the parameter `invSqrt`. The lemmas that need its value assume it is exact at the point used.
- Flight.NextSpeed: JavaScript clamps after both speed keys are applied, and so does the model. The claim that both keys cancel assumes the speed is already in range.
- ParticleScene.Scene.Burst: `vec3.random(v, 2)` is a given vector of length 2 per particle.
- Math.random draws are parameters, each constrained to `[0, 1)` where the code's promise depends on it.
- The copy made by `mat4.clone` is not modelled. With opaque matrices a copy is the matrix itself, so aliasing between stack entries is not modelled.
- TerrainMesh.Terrain.GenerateTriangles requires buffers that hold whole vertices and faces, as many normal floats as position floats, and faces that index existing vertices. The code checks none of this. Its only caller, the constructor, calls it on empty buffers, where all of it holds.
- TerrainMesh.Terrain.constructor requires `div > 0`. The code divides by `div` and never checks it.
- HexColor.ParseInt16: the value is an exact integer. JavaScript rounds values above 2^53, which two hex digits never reach.
- HexColor.Substring, HexColor.CharAt: positions count characters (Unicode scalar values), whereas JavaScript counts UTF-16 code units. On a string holding a character outside the Basic Multilingual Plane, such as an emoji, `substring(1, 7)` and `charAt(0)` can differ from the model.

## Notes on the code as written

- The terrain's edge list holds six indices per triangle, so `eBuffer.length == 2 * fBuffer.length` (MP2/Terrain.js:295-308). A count of three pairs per triangle is this same number.
- The terrain code accepts `minX >= maxX` and `minY >= maxY`. The grid is then laid out in the other direction or collapsed; nothing rejects it.
- The terrain normal accumulation reads a face's three corner normals before writing any back (MP2/Terrain.js:234-252). A face that named one vertex twice would add its normal to that vertex once. The grid's faces never do this; `GridFacesWellFormed` proves their corners distinct.
- The comment on `wallFlag` (MP1/mp1.js:48-49) calls 1 the x-direction flag and 2 the y-direction flag. The code does the opposite: a hit in x sets 2 and reverses `xDirection` (MP1/mp1.js:355-359, 370-372). The model follows the code.
- The skybox sets `numVertices` to 24, the number of floats in `vBuffer`, not the 8 corners (MP3/skybox.js:61). The model keeps 24.
- `generateTriangles` pushes onto its buffers rather than replacing them (MP2/Terrain.js:165-170, 182-189). The constructor calls it once, on empty buffers. A second call would push a second grid and its faces, but those faces count vertex indices from 0, so they index the first grid's vertices. All the vertices would be displaced again and all the normals recomputed. `GenerateTriangles` states this as `old(...) + ...` for each buffer.
- `createMesh` appends to `fBuffer` rather than replacing it. Calling it a second time would double the index list; `CreateMesh` states this as `fBuffer == old(fBuffer) + ...`.
- `parseInt(_, 16)` accepts a sign, a `0x` prefix and trailing junk. So `hexToR("#-1ffff")` is -1 and `hexToR("0x1234")` is `NaN`. The helpers give byte values only for hex-digit strings, as `HexChannels` states.
