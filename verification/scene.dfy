/** The viewer's scene: an ordered list of tagged children, with the
    materials meshes are drawn with, and the clearing step every selection
    change starts with. */
module Scene {

  import opened Wrappers

  datatype Side = FrontSide | DoubleSide

  /** What a material paints: an image loaded from `path`, or one flat colour. */
  datatype Surface = TextureMap(path: string) | FlatColor(color: int)

  /** A basic (unlit) material. `opacityPercent` is the opacity times one
      hundred, absent when the source leaves it unset. */
  datatype Material = Material(
    surface: Surface,
    transparent: bool,
    opacityPercent: Option<nat>,
    side: Side)

  /** A child of the scene. A camera is told apart from other cameras by `id`,
      standing for object identity. */
  datatype SceneObject =
    | CameraObject(id: nat)
    | AmbientLight
    | PlanetMesh(material: Material)
    | RingMesh(material: Material)

  datatype Kind = CameraKind | AmbientKind | PlanetKind | RingKind

  function KindOf(o: SceneObject): Kind
  {
    match o
    case CameraObject(_) => CameraKind
    case AmbientLight => AmbientKind
    case PlanetMesh(_) => PlanetKind
    case RingMesh(_) => RingKind
  }

  /** How many children of `s` are of kind `k`. */
  function CountKind(s: seq<SceneObject>, k: Kind): nat
    decreases |s|
  {
    if |s| == 0 then 0
    else (if KindOf(s[0]) == k then 1 else 0) + CountKind(s[1..], k)
  }

  lemma {:induction false} CountKindAppend(a: seq<SceneObject>, b: seq<SceneObject>, k: Kind)
    ensures CountKind(a + b, k) == CountKind(a, k) + CountKind(b, k)
    decreases |a|
  {
    if |a| != 0 {
      assert (a + b)[0] == a[0];
      assert (a + b)[1..] == a[1..] + b;
      CountKindAppend(a[1..], b, k);
    } else {
      assert a + b == b;
    }
  }

  /** A list with no child of kind `k` counts zero of them, and conversely. */
  lemma {:induction false} CountKindZero(s: seq<SceneObject>, k: Kind)
    ensures CountKind(s, k) == 0 <==> forall o :: o in s ==> KindOf(o) != k
    decreases |s|
  {
    if |s| != 0 {
      CountKindZero(s[1..], k);
      assert s == [s[0]] + s[1..];
    }
  }

  /** Whether a child survives the clearing step: it is the viewer's own camera
      or its type is "AmbientLight". */
  predicate Survives(o: SceneObject, cameraId: nat)
  {
    o == CameraObject(cameraId) || o.AmbientLight?
  }

  /** The clearing step: drop every child that is neither the viewer's camera
      nor an ambient light, keeping the rest in order. */
  function ClearPrevious(children: seq<SceneObject>, cameraId: nat): (r: seq<SceneObject>)
    ensures forall o :: o in r <==> o in children && Survives(o, cameraId)
    ensures |r| <= |children|
    decreases |children|
  {
    if |children| == 0 then []
    else
      var rest := ClearPrevious(children[1..], cameraId);
      if Survives(children[0], cameraId) then [children[0]] + rest else rest
  }

  /** Clearing keeps every copy of a surviving child, so no ambient light is
      ever lost. */
  lemma {:induction false} ClearKeepsEveryCopy(children: seq<SceneObject>, cameraId: nat, o: SceneObject)
    requires Survives(o, cameraId)
    ensures multiset(ClearPrevious(children, cameraId))[o] == multiset(children)[o]
    decreases |children|
  {
    if |children| != 0 {
      ClearKeepsEveryCopy(children[1..], cameraId, o);
      assert children == [children[0]] + children[1..];
    }
  }

  /** Clearing distributes over concatenation. */
  lemma {:induction false} ClearAppend(a: seq<SceneObject>, b: seq<SceneObject>, cameraId: nat)
    ensures ClearPrevious(a + b, cameraId) == ClearPrevious(a, cameraId) + ClearPrevious(b, cameraId)
    decreases |a|
  {
    if |a| != 0 {
      assert (a + b)[0] == a[0];
      assert (a + b)[1..] == a[1..] + b;
      ClearAppend(a[1..], b, cameraId);
    } else {
      assert a + b == b;
    }
  }

  /** Clearing keeps a list of survivors as it is, and so clearing twice is
      clearing once. */
  lemma {:induction false} ClearKeepsSurvivors(s: seq<SceneObject>, cameraId: nat)
    requires forall o :: o in s ==> Survives(o, cameraId)
    ensures ClearPrevious(s, cameraId) == s
    decreases |s|
  {
    if |s| != 0 {
      assert s[0] in s;
      ClearKeepsSurvivors(s[1..], cameraId);
    }
  }

  lemma ClearIdempotent(s: seq<SceneObject>, cameraId: nat)
    ensures ClearPrevious(ClearPrevious(s, cameraId), cameraId) == ClearPrevious(s, cameraId)
  {
  }

  /** Clearing a list with no survivors leaves nothing. */
  lemma {:induction false} ClearKeepsNothing(s: seq<SceneObject>, cameraId: nat)
    requires forall o :: o in s ==> !Survives(o, cameraId)
    ensures ClearPrevious(s, cameraId) == []
    decreases |s|
  {
    if |s| != 0 {
      assert s[0] in s;
      ClearKeepsNothing(s[1..], cameraId);
    }
  }

  /** A cleared scene holds no meshes. */
  lemma ClearLeavesNoMeshes(s: seq<SceneObject>, cameraId: nat)
    ensures CountKind(ClearPrevious(s, cameraId), PlanetKind) == 0
    ensures CountKind(ClearPrevious(s, cameraId), RingKind) == 0
  {
  }

}
