/** One planet-viewer session: the graphics context created on mount, the
    resize guard, and the update run on every change of the selected planet.
    Renderer, camera and scene are reduced to the state the source reads and
    writes: the renderer's drawing size and a count of render calls, the
    camera's identity and aspect ratio, and the scene's children. */
module PlanetViewer {

  import opened Wrappers
  import opened PlanetTable
  import opened Scene
  import opened Materials

  /** A width and a height in whole pixels. */
  datatype Rect = Rect(width: nat, height: nat)

  /** An aspect ratio kept as the exact quotient width / height. */
  datatype Ratio = Ratio(num: nat, den: nat)

  datatype Camera = Camera(id: nat, aspect: Ratio)

  datatype Renderer = Renderer(size: Option<Rect>, renders: nat)

  /** The session's references; `None` is a reference still null. `canvas`
      is the canvas's bounding box as measured at the time of the call. */
  datatype Viewer = Viewer(
    canvas: Option<Rect>,
    renderer: Option<Renderer>,
    scene: Option<seq<SceneObject>>,
    camera: Option<Camera>,
    loader: Option<Loader>)

  /** How a selection update ended: normally, or by an exception that
      escapes the update, with the state it had reached. */
  datatype EffectRun = Done(viewer: Viewer) | Threw(viewer: Viewer)

  /** The mount step: with a canvas, a renderer, a scene holding one ambient
      light, a camera of aspect 1 and a texture loader; without one, nothing. */
  function Mount(canvas: Option<Rect>, cameraId: nat, loader: Loader): (v: Viewer)
    ensures canvas.None? ==> v.renderer.None? && v.scene.None? && v.camera.None? && v.loader.None?
    ensures canvas.Some? ==> Ready(v) && v.scene == Some([AmbientLight])
    ensures canvas.Some? ==> v.camera == Some(Camera(cameraId, Ratio(1, 1))) && v.loader == Some(loader)
    ensures canvas.Some? ==> v.renderer.value.renders == 0
    ensures v.canvas == canvas
  {
    if canvas.None? then Viewer(canvas, None, None, None, None)
    else Viewer(canvas, Some(Renderer(None, 0)), Some([AmbientLight]),
                Some(Camera(cameraId, Ratio(1, 1))), Some(loader))
  }

  /** Renderer, scene and camera all exist: the selection update's guard. */
  predicate Ready(v: Viewer)
  {
    v.renderer.Some? && v.scene.Some? && v.camera.Some?
  }

  // ---------------------------------------------------------------------------
  // The resize guard
  // ---------------------------------------------------------------------------

  /** A measured dimension of zero falls back to the window's. */
  function Effective(measured: nat, window: nat): nat
  {
    if measured != 0 then measured else window
  }

  function EffectiveSize(canvas: Rect, window: Rect): Rect
  {
    Rect(Effective(canvas.width, window.width), Effective(canvas.height, window.height))
  }

  /** The resize step goes ahead: canvas, camera and renderer exist and
      neither effective dimension is zero. */
  predicate ResizeApplies(v: Viewer, window: Rect)
  {
    v.canvas.Some? && v.camera.Some? && v.renderer.Some? &&
    EffectiveSize(v.canvas.value, window).width != 0 &&
    EffectiveSize(v.canvas.value, window).height != 0
  }

  /** Fits camera and renderer to the canvas's measured size, using the
      window's size for a dimension measured as zero, and renders once when
      there is a scene. Does nothing when a reference is missing or a
      dimension is zero. */
  function Resize(v: Viewer, window: Rect): (r: Viewer)
    ensures !ResizeApplies(v, window) ==> r == v
    ensures ResizeApplies(v, window) ==> r.renderer.Some? && r.renderer.value.size.Some?
    ensures ResizeApplies(v, window) ==>
      var w := r.renderer.value.size.value.width;
      var h := r.renderer.value.size.value.height;
      && w > 0 && h > 0
      && (w == v.canvas.value.width || (v.canvas.value.width == 0 && w == window.width))
      && (h == v.canvas.value.height || (v.canvas.value.height == 0 && h == window.height))
      && r.camera == Some(Camera(v.camera.value.id, Ratio(w, h)))
      && r.renderer.value.renders == v.renderer.value.renders + (if v.scene.Some? then 1 else 0)
    ensures r.canvas == v.canvas && r.scene == v.scene && r.loader == v.loader
    ensures r.renderer.Some? == v.renderer.Some? && r.camera.Some? == v.camera.Some?
    ensures v.camera.Some? ==> r.camera.value.id == v.camera.value.id
  {
    if !ResizeApplies(v, window) then v
    else
      var size := EffectiveSize(v.canvas.value, window);
      var renderer := v.renderer.value;
      var renders := if v.scene.Some? then renderer.renders + 1 else renderer.renders;
      v.(camera := Some(v.camera.value.(aspect := Ratio(size.width, size.height))),
         renderer := Some(Renderer(Some(size), renders)))
  }

  /** Resizing twice with the same measurements sets the same sizes again. */
  lemma ResizeSettles(v: Viewer, window: Rect)
    requires ResizeApplies(v, window)
    ensures Resize(Resize(v, window), window).camera == Resize(v, window).camera
    ensures Resize(Resize(v, window), window).renderer.value.size == Resize(v, window).renderer.value.size
  {
  }

  // ---------------------------------------------------------------------------
  // The selection update
  // ---------------------------------------------------------------------------

  /** The meshes a selection adds: the planet, then its ring when the planet
      is Saturn. */
  function Built(p: Planet, loader: Option<Loader>): (s: seq<SceneObject>)
    ensures CountKind(s, PlanetKind) == 1
    ensures CountKind(s, RingKind) == (if p.name == SaturnName then 1 else 0)
    ensures forall o :: o in s ==> o.PlanetMesh? || o.RingMesh?
    ensures s[0] == PlanetMesh(PlanetMaterial(p, loader))
  {
    var planet := [PlanetMesh(PlanetMaterial(p, loader))];
    var ring := if p.name == SaturnName then [RingMesh(RingMaterial(loader))] else [];
    CountKindAppend(planet, ring, PlanetKind);
    CountKindAppend(planet, ring, RingKind);
    planet + ring
  }

  /** Adds the planet's mesh, renders once (the first frame of the rotation
      loop), then adds Saturn's ring. */
  function AddMeshes(v: Viewer, p: Planet): (r: Viewer)
    requires Ready(v)
    ensures Ready(r) && r.camera == v.camera && r.canvas == v.canvas && r.loader == v.loader
    ensures r.scene.value == v.scene.value + Built(p, v.loader)
    ensures r.renderer.value.renders == v.renderer.value.renders + 1
    ensures r.renderer.value.size == v.renderer.value.size
  {
    var renderer := v.renderer.value;
    var withPlanet := v.scene.value + [PlanetMesh(PlanetMaterial(p, v.loader))];
    var rendered := v.(scene := Some(withPlanet),
                       renderer := Some(renderer.(renders := renderer.renders + 1)));
    if p.name == SaturnName
    then rendered.(scene := Some(withPlanet + [RingMesh(RingMaterial(v.loader))]))
    else rendered
  }

  /** The update run whenever the selected planet changes. With renderer,
      scene and camera in place it clears the scene, looks the planet up,
      adds its mesh, renders once (the first frame of the rotation loop), adds
      Saturn's ring, and finishes with a resize. An index outside the table
      throws when the missing record is read, after the clearing. */
  function SelectPlanet(v: Viewer, index: int, window: Rect): (r: EffectRun)
    ensures !Ready(v) ==> r == Done(v)
    ensures r.Threw? <==> Ready(v) && !ValidIndex(index)
    ensures Ready(v) ==> Ready(r.viewer) && r.viewer.camera.value.id == v.camera.value.id
    ensures Ready(v) ==>
      var kept := ClearPrevious(v.scene.value, v.camera.value.id);
      r.viewer.scene.value == kept + (if ValidIndex(index) then Built(Planets[index], v.loader) else [])
    ensures Ready(v) && ValidIndex(index) ==>
      && r.viewer.camera == Resize(v, window).camera
      && r.viewer.renderer.value.size == Resize(v, window).renderer.value.size
      && r.viewer.renderer.value.renders ==
           v.renderer.value.renders + 1 + (if ResizeApplies(v, window) then 1 else 0)
    ensures Ready(v) && !ValidIndex(index) ==>
      r.viewer.camera == v.camera && r.viewer.renderer == v.renderer
    ensures r.viewer.loader == v.loader && r.viewer.canvas == v.canvas
  {
    if !Ready(v) then Done(v)
    else
      var cleared := v.(scene := Some(ClearPrevious(v.scene.value, v.camera.value.id)));
      if !ValidIndex(index) then Threw(cleared)
      else Done(Resize(AddMeshes(cleared, Planets[index]), window))
  }

  /** After an update with a valid index, the scene holds exactly one planet
      mesh, a ring exactly when the planet is Saturn, and otherwise only what
      the clearing keeps: the viewer's camera and every ambient light. */
  lemma SelectionSceneShape(v: Viewer, index: int, window: Rect)
    requires Ready(v) && ValidIndex(index)
    ensures var s := SelectPlanet(v, index, window).viewer.scene.value;
      && CountKind(s, PlanetKind) == 1
      && (CountKind(s, RingKind) == 1 <==> Planets[index].name == SaturnName)
      && CountKind(s, RingKind) <= 1
      && (forall o :: o in s ==> Survives(o, v.camera.value.id) || o.PlanetMesh? || o.RingMesh?)
      && multiset(s)[AmbientLight] == multiset(v.scene.value)[AmbientLight]
  {
    var id := v.camera.value.id;
    var kept := ClearPrevious(v.scene.value, id);
    var built := Built(Planets[index], v.loader);
    ClearLeavesNoMeshes(v.scene.value, id);
    CountKindAppend(kept, built, PlanetKind);
    CountKindAppend(kept, built, RingKind);
    CountKindZero(built, AmbientKind);
    CountKindZero(built, CameraKind);
    ClearKeepsEveryCopy(v.scene.value, id, AmbientLight);
    assert multiset(built)[AmbientLight] == 0 by {
      assert AmbientLight !in built;
    }
    assert multiset(kept + built) == multiset(kept) + multiset(built);
  }

  /** A planet's mesh is drawn with the material chosen for it, and Saturn's
      ring with the ring material. */
  lemma SelectionMaterials(v: Viewer, index: int, window: Rect)
    requires Ready(v) && ValidIndex(index)
    ensures var s := SelectPlanet(v, index, window).viewer.scene.value;
      && PlanetMesh(PlanetMaterial(Planets[index], v.loader)) in s
      && (Planets[index].name == SaturnName ==> RingMesh(RingMaterial(v.loader)) in s)
  {
  }

  /** Selections do not accumulate meshes: after two updates the scene is
      what the second update alone would have produced. This holds even when
      the first index is outside the table, since a throwing update leaves
      the cleared scene behind. */
  lemma LastSelectionWins(v: Viewer, i: int, j: int, w1: Rect, w2: Rect)
    requires Ready(v)
    ensures SelectPlanet(SelectPlanet(v, i, w1).viewer, j, w2).viewer.scene ==
            SelectPlanet(v, j, w2).viewer.scene
  {
    var id := v.camera.value.id;
    var kept := ClearPrevious(v.scene.value, id);
    var first := SelectPlanet(v, i, w1).viewer;
    assert Ready(first) && first.camera.value.id == id && first.loader == v.loader;
    ClearIdempotent(v.scene.value, id);
    if ValidIndex(i) {
      var built := Built(Planets[i], v.loader);
      assert first.scene.value == kept + built;
      ClearAppend(kept, built, id);
      ClearKeepsNothing(built, id);
    } else {
      assert first.scene.value == kept;
    }
    assert ClearPrevious(first.scene.value, id) == kept;
  }

  /** The viewer after selecting each index of `indices` in turn, while the
      window keeps the size `window`. */
  function SelectAll(v: Viewer, indices: seq<int>, window: Rect): Viewer
    decreases |indices|
  {
    if |indices| == 0 then v
    else SelectAll(SelectPlanet(v, indices[0], window).viewer, indices[1..], window)
  }

  /** A session of valid selections leaves the scene holding its ambient light
      and the meshes of the last selection, whatever came before. */
  lemma {:induction false} SessionShowsLastSelection(
    canvas: Rect, cameraId: nat, loader: Loader, indices: seq<int>, window: Rect)
    requires |indices| > 0
    requires forall k :: 0 <= k < |indices| ==> 0 <= indices[k] < |Planets|
    ensures SelectAll(Mount(Some(canvas), cameraId, loader), indices, window).scene ==
            Some([AmbientLight] + Built(Planets[indices[|indices| - 1]], Some(loader)))
  {
    var v := Mount(Some(canvas), cameraId, loader);
    assert ClearPrevious(v.scene.value, cameraId) == [AmbientLight];
    SelectAllFrom(v, [AmbientLight], indices, window);
  }

  lemma {:induction false} SelectAllFrom(v: Viewer, base: seq<SceneObject>, indices: seq<int>, window: Rect)
    requires Ready(v) && ClearPrevious(v.scene.value, v.camera.value.id) == base
    requires |indices| > 0
    requires forall k :: 0 <= k < |indices| ==> 0 <= indices[k] < |Planets|
    ensures SelectAll(v, indices, window).scene ==
            Some(base + Built(Planets[indices[|indices| - 1]], v.loader))
    decreases |indices|
  {
    var id := v.camera.value.id;
    var next := SelectPlanet(v, indices[0], window).viewer;
    if |indices| > 1 {
      var built := Built(Planets[indices[0]], v.loader);
      ClearAppend(base, built, id);
      ClearIdempotent(v.scene.value, id);
      ClearKeepsNothing(built, id);
      assert next.scene.value == base + built;
      assert ClearPrevious(next.scene.value, id) == base;
      assert indices[1..][|indices[1..]| - 1] == indices[|indices| - 1];
      SelectAllFrom(next, base, indices[1..], window);
    }
  }

  /** Selecting Saturn and then resizing leaves the scene, ring included,
      exactly as the selection left it. */
  lemma ResizeKeepsSaturnRing(v: Viewer, window: Rect, resized: Rect)
    requires Ready(v)
    ensures var s := SelectPlanet(v, 5, window).viewer;
      && Resize(s, resized).scene == s.scene
      && RingMesh(RingMaterial(v.loader)) in Resize(s, resized).scene.value
  {
  }

}
