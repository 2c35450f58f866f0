# spheres-app core, modelled in Dafny

This project models the small pieces of logic under the spheres-app's React and three.js code:

- **Counter grid** (`src/app/page.js`). A counter bounded to [1, 9] with guarded "+" and "-" buttons. A scene rebuild empties the scene, then places `count` spheres on a grid three columns wide, using integer index arithmetic.
- **Planet viewer** (`src/components/PlanetViewer.jsx`). The static table of eight planets. The selection update, which:
  - clears every scene child except the viewer's camera and the ambient lights;
  - adds one planet mesh, drawn with a texture or, as a fallback, a flat colour;
  - adds Saturn's ring;
  - ends with a resize.
  It also covers the resize guard, which falls back to the window's dimensions and does nothing when a reference is missing or a dimension is zero.

The scene is a sequence of tagged objects (`CameraObject`, `AmbientLight`, `PlanetMesh`, `RingMesh`), each mesh carrying its material. The texture loader is an oracle: the set of paths whose synchronous load setup throws. The renderer is reduced to its drawing size and a count of render calls. The camera is reduced to its identity and its aspect ratio, which is kept as the exact pair (width, height).

Modules: `Wrappers` (Option), `CounterGrid`, `PlanetTable`, `Scene`, `Materials`, `PlanetViewer`.

The error callback's comment (`src/components/PlanetViewer.jsx:253`, "Force re-render with fallback color") suggests that a failed load leaves the planet in its flat fallback colour. The callback itself only logs and re-renders (`src/components/PlanetViewer.jsx:247-255`), so the material stays texture-mapped. The flat colour is chosen only when setting up the load throws synchronously, or when there is no texture or no loader. That is what `Materials.PlanetMaterial` states.

## Model

| member | source | states |
|---|---|---|
| CounterGrid.Increment | src/app/page.js:9-13 | From a count in [1, 9], "+" gives min(count + 1, 9) and stays in range. It changes the count exactly when the count is below 9, and then by one. |
| CounterGrid.Decrement | src/app/page.js:15-19 | From a count in [1, 9], "-" gives max(count - 1, 1) and stays in range. It changes the count exactly when the count is above 1, and then by one. |
| CounterGrid.RunStaysInRange | src/app/page.js:9-19 | Any sequence of button presses from a count in [1, 9] ends in [1, 9]. |
| CounterGrid.ReachableInRange | src/app/page.js:7-19 | Every count reachable from the initial count 1 lies in [1, 9]. |
| CounterGrid.IncrementThenDecrement | src/app/page.js:9-19 | For 1 <= c < 9, "+" then "-" returns to c. |
| CounterGrid.DecrementThenIncrement | src/app/page.js:9-19 | For 1 < c <= 9, "-" then "+" returns to c. |
| CounterGrid.RunPluses | src/app/page.js:9-13 | Pressing "+" k times from c gives c + k while c + k stays at most 9. |
| CounterGrid.EveryCountReachable | src/app/page.js:7-13 | Every count in [1, 9] is reached from the initial count by pressing "+" count - 1 times. |
| CounterGrid.GridPosition | src/app/page.js:63-67 | Sphere i has x in {-5, 0, 5} and y <= 0. For i below the 9 grid cells, y is in {0, -5, -10}. |
| CounterGrid.GridIndexInvertsPosition | src/app/page.js:66-67 | Reading a sphere's cell back as 3 * row + column gives its index, so the placement has an inverse. |
| CounterGrid.GridPositionInjective | src/app/page.js:66-67 | Distinct indices get distinct (x, y) positions. |
| CounterGrid.LayoutGrows | src/app/page.js:63-70 | The layout for n + 1 spheres is the layout for n, plus one sphere at index n's cell. |
| CounterGrid.LayoutPositionsDistinct | src/app/page.js:63-70 | No two spheres of one layout share a cell. |
| CounterGrid.Rebuild | src/app/page.js:57-70 | The rebuild empties the scene it is given, then leaves exactly max(count, 0) spheres. Sphere i is at index i's grid cell, in the sphere colour. |
| PlanetTable.TableShape | src/components/PlanetViewer.jsx:46-167 | The table has 8 entries with pairwise distinct names. The only entry named "Saturn" is at index 5. |
| PlanetTable.TableTexturesRooted | src/components/PlanetViewer.jsx:46-167 | Every table entry has a non-empty texture path that starts with "/". |
| Scene.ClearPrevious | src/components/PlanetViewer.jsx:214-221 | Clearing keeps exactly the children that are the viewer's camera or ambient lights, and drops every other child. It never grows the scene. |
| Scene.ClearKeepsEveryCopy | src/components/PlanetViewer.jsx:214-221 | Every copy of a surviving child is kept, so every ambient light survives the clearing. |
| Scene.ClearAppend | src/components/PlanetViewer.jsx:214-221 | Clearing a concatenation clears each part. |
| Scene.ClearKeepsSurvivors | src/components/PlanetViewer.jsx:214-221 | Clearing a scene of only cameras-of-this-viewer and ambient lights changes nothing. |
| Scene.ClearIdempotent | src/components/PlanetViewer.jsx:214-221 | Clearing twice is clearing once. |
| Scene.ClearKeepsNothing | src/components/PlanetViewer.jsx:214-221 | Clearing a list with no camera of this viewer and no ambient light leaves it empty. |
| Scene.ClearLeavesNoMeshes | src/components/PlanetViewer.jsx:214-221 | A cleared scene holds no planet mesh and no ring mesh. |
| Materials.NormalizePath | src/components/PlanetViewer.jsx:233-235 | The result always starts with "/". An input that starts with "/" is returned unchanged. Any other input gets exactly one "/" in front. |
| Materials.NormalizePathIdempotent | src/components/PlanetViewer.jsx:233-235 | Normalising twice is normalising once. |
| Materials.PlanetMaterial | src/components/PlanetViewer.jsx:230-278 | The material is flat, in the planet's own colour, exactly when the planet has no texture, there is no loader, or setup throws on the normalised path. Otherwise it maps that path. It is opaque either way. |
| Materials.RingMaterial | src/components/PlanetViewer.jsx:298-318 | The ring maps the ring image at 90% opacity unless setup throws, including for a missing loader. In that case it is flat 0xc4a484 at 80%. It is transparent and double-sided either way. |
| Materials.TablePlanetMaterial | src/components/PlanetViewer.jsx:224-278 | For a table planet, the mesh maps the record's own path, or falls back to the record's colour when setup throws on that path. |
| PlanetViewer.Mount | src/components/PlanetViewer.jsx:169-196 | With a canvas, mounting creates a renderer that has not rendered yet, a camera of aspect 1, a loader, and a scene holding only one ambient light. Without a canvas it creates nothing. |
| PlanetViewer.Resize | src/components/PlanetViewer.jsx:14-37 | Each effective dimension is the canvas's measured one, or the window's when that is 0. With a reference missing or an effective dimension 0, nothing changes. Otherwise the camera aspect becomes width / height, the renderer takes that size, and one render is issued exactly when a scene exists. The scene is never touched. |
| PlanetViewer.ResizeSettles | src/components/PlanetViewer.jsx:14-37 | A second resize with the same measurements sets the same camera aspect and renderer size. |
| PlanetViewer.Built | src/components/PlanetViewer.jsx:280-325 | A selection adds exactly one planet mesh, in the planet's material. It adds one ring mesh when the planet is Saturn and none otherwise. It adds nothing else. |
| PlanetViewer.AddMeshes | src/components/PlanetViewer.jsx:280-325 | Adding a planet appends exactly its meshes to the scene and issues one render. Camera, canvas, loader and the renderer's size are untouched. |
| PlanetViewer.SelectPlanet | src/components/PlanetViewer.jsx:206-331 | Without renderer, scene or camera, nothing changes. Otherwise the scene becomes its cleared self followed by the selected planet's meshes. With a valid index, the update ends with a resize: the camera and renderer size are those a resize of the original viewer would set, and renders grow by one, plus one more when the resize goes ahead. An index outside the table throws, leaves the scene cleared and leaves camera and renderer untouched. The loader, canvas and camera identity are kept. |
| PlanetViewer.SelectionSceneShape | src/components/PlanetViewer.jsx:206-325 | After a valid selection, the scene holds exactly one planet mesh, and one ring mesh if and only if the planet is Saturn. Apart from those it holds only the viewer's camera and ambient lights, and every earlier ambient light is still there. |
| PlanetViewer.SelectionMaterials | src/components/PlanetViewer.jsx:224-325 | After a valid selection, the scene holds the planet mesh in the planet's chosen material. For Saturn it also holds the ring in the ring material. |
| PlanetViewer.LastSelectionWins | src/components/PlanetViewer.jsx:214-325 | Two updates in a row leave the same scene as the second update alone, so meshes never accumulate. This holds even when the first index is outside the table. |
| PlanetViewer.SelectAllFrom | src/components/PlanetViewer.jsx:206-331 | After any non-empty run of valid selections, the scene is its survivors followed by the meshes of the last selection. |
| PlanetViewer.SessionShowsLastSelection | src/components/PlanetViewer.jsx:169-331 | After mounting and any non-empty run of valid selections, the scene is one ambient light followed by the last selected planet's meshes. |
| PlanetViewer.ResizeKeepsSaturnRing | src/components/PlanetViewer.jsx:14-37 | After selecting Saturn, a resize leaves the scene, ring included, unchanged. |

## Left out

- Asynchronous texture-load callbacks are not modelled: success, progress and error (`PlanetViewer.jsx:238-255`). The success callback re-runs the resize step and renders, the error callback logs and renders, and the progress callback does nothing. Their interleaving with later selections is event-loop concurrency. A load is modelled as a synchronous succeed-or-throw oracle.
- The `requestAnimationFrame` rotation loop is not modelled. It is float arithmetic on the rotation, and the loop is unbounded and never cancelled. Only its first, synchronous render is counted.
- Renderer construction, `dispose` and `render` are not modelled beyond a render count. Camera projection and `updateProjectionMatrix` are not modelled either. These are three.js internals.
- Floating-point values are kept out of the model. Sphere and ring geometry (radii, segments, the PI/2 and 0.1 ring tilt), the camera's field of view and the mesh positions are omitted. The planets' relative sizes are kept as tenths, opacities as percents, and the aspect ratio as an exact pair.
- PlanetViewer.Resize: canvas measurements are whole pixels. A fractional bounding box is not modelled.
- The planets' `facts` strings are omitted. They are display text with no behaviour.
- React plumbing is not modelled: hooks, refs, the window resize listener's registration and removal (`PlanetViewer.jsx:334-351`, `page.js:38-44`), and JSX layout. The selection update always ends with a resize, because the ref holding the resize function is set by an effect that runs before it.
- Each counter-grid rebuild starts from a fresh scene, renderer and camera (`page.js:25-36`), so the clearing loop at `page.js:58-60` always sees an empty scene. `CounterGrid.Rebuild` takes the prior children as a parameter only to model that loop; the scene does not persist across count changes.
- The counter-grid page's renderer, camera and resize handler are not modelled, nor its single `render` call after the rebuild. The counter is modelled with synchronous updates, so React's batching of `setCount` updaters is not represented.
- The solar-system page that owns the selected index and its buttons is not part of this model.
