# Interactive solar system: a verified model of the simulation core

This project is a Dafny model of the core of a Three.js solar-system viewer. The core has four parts:

- **The per-frame update** (`loop` in `src/animation.js`). It measures the frame delta `dt` and always stores `lastTime`. It drops degenerate frames. On the frames it keeps, it spins every body with a nonzero spin factor about its y axis, advances each planet's orbital angle by a damped rate, and places the planet on its orbit circle.
- **The body factory** (`createBodies` in `src/bodies.js`). It makes one mesh per catalog entry with a copy of the entry as `userData`. For each planet it derives a scene-space orbit radius and a random start angle, and it adds an orbit line before the planet's mesh. It pins the star at the origin.
- **The catalog and scales** (`src/data.js`). This is constant data. The update step relies on its invariants: one star, first, with zero orbital speed and no radius; every planet with a positive radius.
- **Click-to-inspect** (`src/interaction.js`). It converts the click to normalised device coordinates (NDC). It walks from the first raycaster hit up to the object that owns it, and fills the info card with that object's fields, using an `"N/A"` fallback. It hides the card on a miss or when the close button is clicked.

The modules follow the files:

- `js_math.dfy` (`JsMath`): JavaScript numbers as `NaN | Num(real)`, comparisons that are false on NaN, truthiness, `||` on strings, `Math.PI`, and the trigonometric pair.
- `catalog.dfy` (`Catalog`): the data in `src/data.js`.
- `scene_graph.dfy` (`SceneGraph`): the part of a three.js `Object3D` the core touches, as a class `Node` with a parent, children, name, `userData`, y rotation and position.
- `bodies.dfy` (`Bodies`): `createBodies`.
- `animation.dfy` (`Animation`): `animateLoop`/`loop`.
- `interaction.dfy` (`Interaction`): the click and close handlers.

The code that changes state is imperative:

- `Animation.Animator` holds `lastTime`. Its `FrameStep` loops over the body meshes and updates their fields in place.
- `Bodies.CreateBodies` loops over the catalog, allocates meshes and appends to the scene's children.
- `Interaction.Picker` holds the mouse vector and the card state. Its walk up the parent chain is a `while` loop.

Each method is proved against a pure function: `StepBody`/`Advance` for a frame, `InitialUserData` and `Layout` for the factory, `Inspect`/`Show`/`Hide` for the card. The properties of the source are lemmas about those functions and about their folds over many frames (`Run`) and many card events (`Replay`).

Two facts about the code:

- The frame gate is `dt < 0.2`, so a delta of exactly 0.2 s is rejected as well as larger ones (`Animation.AcceptsExactly`). The model keeps this as written.
- Nothing checks the catalog's entries when it is loaded. src/main.js:41 only reports an empty catalog on the loading screen and carries on. A non-star entry without `orbitalRadiusAU` is not rejected: its `orbitalRadiusScene` and its orbit line's radius are `NaN` from the start (src/bodies.js:20, 23), while its angle is still a number (src/bodies.js:21) until the first accepted frame makes it `NaN` through the damping divisor (src/animation.js:14-16). The model does not follow this: it requires the radius to be present (see "Left out").

## Model

| member | source | states |
|---|---|---|
| JsMath.OrElse | src/interaction.js:19-21 | `s \|\| fallback` gives the string when it is present and non-empty, otherwise the fallback; with a non-empty fallback the result is never empty |
| JsMath.PythagoreanSatisfiable | src/animation.js:17-18 | the only property assumed of cos/sin, cos² + sin² = 1, is consistent |
| Catalog.PlanetRadiiAU | src/data.js:27-118 | one AU radius per non-star entry, in catalog order |
| Catalog.PlanetSpeeds | src/data.js:28-119 | one orbital speed factor per non-star entry, in catalog order |
| Catalog.WellFormedHasOneStar | src/data.js:9-21 | a catalog with the star first and only planets after it has exactly one star |
| Catalog.DampingPositive | src/animation.js:14-15 | in a well-formed catalog every planet's damping divisor `AU*0.4+0.6` exceeds 0.6, so the division is defined |
| Catalog.CatalogWellFormed | src/data.js:8-126 | the shipped catalog is well formed: exactly one star, first, named "Sun", with speed 0 and no radius; every other entry is a planet with a positive radius |
| Catalog.CatalogRadiiList | src/data.js:27-118 | the planet radii are 0.39, 0.72, 1.0, 1.52, 5.2, 9.58, 19.22 and 30.05 AU |
| Catalog.CatalogRadiiIncrease | src/data.js:27-118 | planet radii strictly increase along the catalog |
| Catalog.CatalogSpeedList | src/data.js:28-119 | the planet speed factors are the orbital speeds divided by Earth's 29.78 |
| Catalog.CatalogSpeedsDecrease | src/data.js:28-119 | planet speed factors strictly decrease along the catalog |
| Catalog.EarthIsBaseline | src/data.js:49-54 | Earth has radius 1 AU and speed factor 1 |
| Catalog.RetrogradeBodies | src/data.js:20-120 | every rotation factor is present and nonzero, and it is negative exactly for Venus and Uranus |
| Catalog.ScalesPositive | src/data.js:1-5 | distance factor, size factor and time scale are positive |
| Catalog.CatalogNamesDistinct | src/data.js:10-114 | body names are non-empty and pairwise distinct |
| SceneGraph.Node.constructor | src/bodies.js:15 | a new object has no parent, no children, zero rotation and sits at the origin |
| SceneGraph.Node.Add | src/bodies.js:28-30 | `scene.add` of a parentless object appends it to the children and makes the scene its parent |
| Bodies.InitialUserData | src/bodies.js:17-21 | the mesh's `userData` is the entry itself; the star gets no scene radius and no angle; a planet gets `AU * distanceFactor` and an angle in [0, 2π) |
| Bodies.NewBody | src/bodies.js:6-31 | one callback: a fresh mesh in its created state (entry's name, `InitialUserData`, parent the scene, no children, no rotation, at the origin); the scene gains exactly `EntryLayout`: for a planet its orbit line of radius `AU * distanceFactor` first, and the mesh last |
| Bodies.AddBody | src/bodies.js:6-33 | one callback takes what is built after i entries to what is built after i + 1, leaving the earlier meshes as they were |
| Bodies.Layout | src/bodies.js:6-31 | what the factory adds, in order: per entry, the planet's orbit line and then the mesh; one object per entry plus one per planet |
| Bodies.LayoutSnoc | src/bodies.js:6-33 | one more catalog entry appends exactly that entry's line and mesh to the layout |
| Bodies.CreateBodies | src/bodies.js:4-35 | one distinct fresh mesh per entry, in catalog order, each in its created state with no children; the old children are kept; the objects the scene gains have exactly the kinds `Layout` gives, in that order (each planet's orbit line, of its scene radius, just before its mesh), these meshes among them, and the scene as parent |
| Animation.StepBody | src/animation.js:11-20 | a step keeps a body steppable, keeps its record and scene radius, and never writes `position.y` |
| Animation.Advance | src/animation.js:8-21 | a frame keeps every body steppable |
| Animation.Frames | src/animation.js:8-20 | any number of equal frames with a delta the gate accepts (0 < dt < 0.2) keeps a body steppable, with its record and scene radius |
| Animation.Run | src/animation.js:3-21 | any sequence of frames, each accepted or rejected by the gate on its own delta, keeps a body steppable, with its record and scene radius |
| Animation.RunSnoc | src/animation.js:3-21 | one more frame at the end of a run is one more gated `Advance` |
| Animation.FramesIsRun | src/animation.js:8-20 | k equal frames of an accepted delta are exactly the gated run of k frames with that delta |
| Animation.AcceptsExactly | src/animation.js:8 | a frame is accepted exactly when `dt` is a number strictly between 0 and 0.2; NaN, values ≤ 0 and 0.2 itself are rejected |
| Animation.RejectedFrameChangesNothing | src/animation.js:8 | a rejected frame leaves rotation, angle and position unchanged |
| Animation.MeasuredFromPreviousFrame | src/animation.js:5-8 | `dt` is measured from the previous frame's timestamp, whether or not that frame was accepted; the frame is accepted exactly when the timestamps are 0 to 200 ms apart, exclusive |
| Animation.NaNTimestampRejectsNextFrame | src/animation.js:5-8 | a NaN timestamp is stored as `lastTime` and makes the next frame's `dt` NaN, so that frame is rejected |
| Animation.SpinStep | src/animation.js:10-12 | rotation grows by exactly `factor * timeScale*20 * dt` when the factor is truthy, and not at all when it is 0 or undefined |
| Animation.SpinDirection | src/animation.js:12 | for positive time scale and `dt`, the rotation follows the sign of the factor |
| Animation.StarStaysPut | src/animation.js:12-13 | a step never writes the star's angle, radius or position |
| Animation.OrbitStep | src/animation.js:14-16 | a step adds exactly one per-frame increment to a planet's angle |
| Animation.PlanetAngleStepFormula | src/animation.js:9-15 | the increment is `orbitalSpeedFactor * timeScale*5 * dt / (AU*0.4+0.6)` |
| Animation.AngleIncrementPositive | src/animation.js:14-15 | with positive speed, time scale, `dt` and radius, the increment is positive and below `speed * timeScale*5 * dt / 0.6`, the increment with the divisor at its AU = 0 value |
| Animation.OnOrbitCircle | src/animation.js:17-18 | after a step, a planet satisfies x² + z² = `orbitalRadiusScene`² |
| Animation.AngleAfterFrames | src/animation.js:8-16 | after k equal frames of a delta the gate accepts, a planet's angle is the start angle plus k times the per-frame increment (`Increments`), with no wrap-around |
| Animation.StarNeverMoves | src/animation.js:8-19 | over any sequence of frames, accepted or rejected, with any deltas, the star keeps its angle, radius and position |
| Animation.NoSpinNeverRotates | src/animation.js:8-12 | over any sequence of frames, a body whose factor is 0 or undefined never rotates |
| Animation.HeightNeverChanges | src/animation.js:8-19 | no sequence of frames writes `position.y` |
| Animation.AngleAfterRun | src/animation.js:8-16 | over any sequence of frames a planet's angle is its start angle plus the sum of the increments of the accepted frames; rejected frames add nothing |
| Animation.TotalIncrementSign | src/animation.js:8-16 | with positive speed, radius and time scale, that sum is never negative, and it is positive exactly when some frame was accepted |
| Animation.EarthThousandFrames | src/animation.js:9-16 | with the shipped scales and 16 ms frames, Earth gains 0.004 rad per frame and 4 rad in 1000 frames |
| Animation.CatalogBodiesSimulable | src/bodies.js:17-21 | every mesh the factory makes from the shipped catalog can be stepped |
| Animation.OffCircleBeforeFirstFrame | src/bodies.js:18-29 | a planet mesh in its created state, with a positive radius and distance factor, is off its orbit circle: x² + z² ≠ `orbitalRadiusScene`² |
| Animation.Animator.constructor | src/animation.js:2 | `lastTime` starts at 0 |
| Animation.Animator.UpdateBody | src/animation.js:11-20 | the callback on one body turns its state into `StepBody` of it |
| Animation.Animator.FrameStep | src/animation.js:3-21 | `lastTime` becomes `now/1000` on every frame; every body's new state is `Advance` of its own old state under the measured `dt`; names, parents and children are untouched |
| Interaction.NdcX | src/interaction.js:8 | the NDC x lies in [-1, 1] exactly when the click is within the canvas horizontally |
| Interaction.NdcY | src/interaction.js:9 | the NDC y lies in [-1, 1] exactly when the click is within the canvas vertically |
| Interaction.NdcEdges | src/interaction.js:8-9 | left edge → x = -1, right → +1, top → y = +1, bottom → -1 |
| Interaction.PixelNdcRoundTrip | src/interaction.js:8-9 | pixel to NDC and back is the identity |
| Interaction.NdcPixelRoundTrip | src/interaction.js:8-9 | NDC to pixel and back is the identity |
| Interaction.OwnerIndex | src/interaction.js:15 | on a parent chain ending where the walk may stop, the owner is the first object in the chain that has no parent, whose parent is the scene, or that is named |
| Interaction.OwnerOf | src/interaction.js:14-15 | the `while` walk from the first hit terminates at that first stopping object |
| Interaction.DirectHitOwnsItself | src/interaction.js:15 | a hit directly under the scene, or a named hit, is its own owner |
| Interaction.CreatedMeshOwnsItself | src/interaction.js:15 | a factory-made mesh is its own owner and carries its own catalog record |
| Interaction.OwnerSkipsUnnamed | src/interaction.js:15 | an unnamed object under a parent other than the scene passes ownership to its parent |
| Interaction.Inspect | src/interaction.js:16-22 | the card shows the name and `radiusKm*2` and never shows an empty descriptive field; an empty `userData` gives the name and moons fields `undefined` (shown as empty text), NaN for the diameter and "N/A" for the rest |
| Interaction.InspectFallbacks | src/interaction.js:19-22 | distance, period and atmosphere show "N/A" exactly when missing or empty, and their own text otherwise; moons have no fallback |
| Interaction.CatalogCardsComplete | src/interaction.js:16-22 | for every shipped body the card shows the catalog's own name, diameter and texts, and the fallback never fires |
| Interaction.CatalogFieldsPresent | src/data.js:8-126 | every shipped entry has non-empty distance, period and atmosphere texts and a moons text |
| Interaction.CardVisibleAfterHitOnly | src/interaction.js:13-26 | after any non-empty sequence of hits, misses and close clicks the card is visible exactly when the last one was a hit |
| Interaction.CardShowsLastHit | src/interaction.js:16-26 | after any such sequence the card shows the fields of the last hit in it, or its earlier text if there was none; misses and the close button never change the text |
| Interaction.CardIdempotent | src/interaction.js:23-26 | hiding twice is hiding once; showing the same fields twice is showing them once |
| Interaction.CardLastHitWins | src/interaction.js:17-24 | after a hit the card depends only on that hit; hiding it afterwards keeps its text |
| Interaction.Picker.constructor | src/interaction.js:5 | the mouse vector starts at (0, 0) and the card starts hidden |
| Interaction.Picker.Click | src/interaction.js:6-25 | the click stores the NDC position, then shows the owner of the first hit or hides the card on a miss; no body is written |
| Interaction.Picker.Close | src/interaction.js:26 | the close button hides the card |

## Left out

- `requestAnimationFrame`, `controls.update()` and `renderer.render()` (src/animation.js:4, 22-23, 25) are platform and library calls. The model covers one `loop` invocation, `FrameStep`, and sequences of frames on body states, `Run`.
- Three.js geometry, materials, shadows, the orbit-line path and its `rotation.x` (src/bodies.js:7-15, 19, 23-27) are not modelled. An orbit line is a node that records its radius.
- The raycaster (src/interaction.js:4, 11-12) is library code. The hit list is an input sequence, and the parent chain above the first hit is a ghost input.
- The DOM is not modelled: `textContent` writes, `classList` and the event listeners. The card is a `Card` value holding the visibility and the last-shown `Inspection`.
- `toLocaleString` formatting of the diameter (src/interaction.js:18) is not modelled. Only the value `radiusKm*2` is.
- `sunLight.position.set(0,0,0)` (src/bodies.js:11) moves a light that no part of the model reads.
- src/main.js, src/utils.js, src/scene.js, src/lights.js and src/controls.js are not part of this model. They contain DOM wiring, a gradient texture, a random starfield, lights and camera controls.
- Numbers are exact reals plus NaN. IEEE rounding and infinities are not modelled.
- `Math.cos`/`Math.sin` are a `Trig` value held by the animator. Only the Pythagorean identity is assumed, and only where a lemma needs it.
- `Math.random()` is the input sequence `rand`, one value in [0, 1) per catalog entry.
- Bodies.CreateBodies: requires every non-star entry to have `orbitalRadiusAU`; an entry without one yields `NaN` in the source, which the model does not follow.
- Animation.Animator.FrameStep: requires every body to be steppable. A planet needs a radius, a nonzero damping divisor, a scene radius and an angle, which the factory provides for the shipped catalog (`Animation.CatalogBodiesSimulable`); for another catalog a planet radius of -1.5 AU would make the divisor zero. Bodies without them, which would produce NaN in the source, are not modelled.
- Interaction.NdcX: requires a positive canvas width (and NdcY a positive height); a zero-sized canvas, which divides by zero in the source, is not modelled.
- Interaction.Picker.Click: requires the parent chain above the first hit to end at an object where the walk stops. On a cyclic parent graph the source's loop would not terminate.
- SceneGraph.Node.Add: requires the child to have no parent yet. Re-parenting an object that already has a parent is not modelled, because the factory only adds new objects.
- Bodies.CreateBodies: does not state that new orbit lines have no children or are fresh. It states only their kind, radius, position in the order and parent.
- Interaction.Picker.constructor: the hidden, unwritten card at the start is assumed. The card's initial class comes from the page markup, which is not part of this model.
