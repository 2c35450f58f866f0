/** The counter-grid page: a counter bounded to [1, 9], driven by "+" and "-"
    buttons, and a scene rebuild that lays out `count` spheres on a grid three
    columns wide. */
module CounterGrid {

  const MinCount: int := 1
  const MaxCount: int := 9
  /** The counter's value when the page first renders. */
  const InitialCount: int := 1
  /** Distance between neighbouring grid cells, in scene units. */
  const Spacing: int := 5
  /** Number of columns of the grid. */
  const Columns: int := 3
  /** Number of cells in the three-by-three grid; the counter's upper bound
      is chosen so that every sphere fits in it. */
  const Cells: int := Columns * Columns
  /** The one colour every sphere is drawn with. */
  const SphereColor: int := 0x3f7b9d

  function Min(a: int, b: int): int { if a <= b then a else b }
  function Max(a: int, b: int): int { if a >= b then a else b }

  predicate InRange(c: int) { MinCount <= c <= MaxCount }

  // ---------------------------------------------------------------------------
  // The counter state machine
  // ---------------------------------------------------------------------------

  /** The "+" button: adds one below the upper bound, otherwise does nothing. */
  function Increment(c: int): (r: int)
    ensures InRange(c) ==> InRange(r) && r == Min(c + 1, MaxCount)
    ensures r != c <==> c < MaxCount
    ensures r == c || r == c + 1
  {
    if c < MaxCount then c + 1 else c
  }

  /** The "-" button: subtracts one above the lower bound, otherwise does nothing. */
  function Decrement(c: int): (r: int)
    ensures InRange(c) ==> InRange(r) && r == Max(c - 1, MinCount)
    ensures r != c <==> c > MinCount
    ensures r == c || r == c - 1
  {
    if c > MinCount then c - 1 else c
  }

  datatype Button = Plus | Minus

  function Press(c: int, b: Button): int
  {
    match b
    case Plus => Increment(c)
    case Minus => Decrement(c)
  }

  /** The counter after the user presses `buttons`, in order, starting from `c`. */
  function Run(c: int, buttons: seq<Button>): int
    decreases |buttons|
  {
    if |buttons| == 0 then c else Run(Press(c, buttons[0]), buttons[1..])
  }

  /** Whatever the user clicks, the counter never leaves [1, 9]. */
  lemma {:induction false} RunStaysInRange(c: int, buttons: seq<Button>)
    requires InRange(c)
    ensures InRange(Run(c, buttons))
    decreases |buttons|
  {
    if |buttons| != 0 {
      RunStaysInRange(Press(c, buttons[0]), buttons[1..]);
    }
  }

  /** The invariant from the initial state: every reachable count is in [1, 9]. */
  lemma ReachableInRange(buttons: seq<Button>)
    ensures InRange(Run(InitialCount, buttons))
  {
    RunStaysInRange(InitialCount, buttons);
  }

  /** "+" then "-" returns to where it started, below the upper bound. */
  lemma IncrementThenDecrement(c: int)
    requires MinCount <= c < MaxCount
    ensures Decrement(Increment(c)) == c
  {
  }

  /** "-" then "+" returns to where it started, above the lower bound. */
  lemma DecrementThenIncrement(c: int)
    requires MinCount < c <= MaxCount
    ensures Increment(Decrement(c)) == c
  {
  }

  function Pluses(k: nat): (bs: seq<Button>)
    ensures |bs| == k
  {
    seq(k, _ => Plus)
  }

  /** Pressing "+" `k` times from `c` adds `k` as long as the bound is not crossed. */
  lemma {:induction false} RunPluses(c: int, k: nat)
    requires InRange(c) && c + k <= MaxCount
    ensures Run(c, Pluses(k)) == c + k
    decreases k
  {
    if k != 0 {
      assert Pluses(k)[0] == Plus;
      assert Pluses(k)[1..] == Pluses(k - 1);
      RunPluses(c + 1, k - 1);
    }
  }

  /** Every value in [1, 9] is reachable from the initial state. */
  lemma EveryCountReachable(c: int)
    requires InRange(c)
    ensures Run(InitialCount, Pluses(c - InitialCount)) == c
  {
    RunPluses(InitialCount, c - InitialCount);
  }

  // ---------------------------------------------------------------------------
  // The sphere grid
  // ---------------------------------------------------------------------------

  datatype Position = Position(x: int, y: int)

  datatype Sphere = Sphere(position: Position, color: int)

  /** Where sphere `i` goes: column `i mod 3` centred on x = 0, row `i div 3`
      going downwards from y = 0. Indices are never negative, so the source's
      truncating `%` and `Math.floor` agree with Dafny's `%` and `/` here. */
  function GridPosition(i: nat): (p: Position)
    ensures p.x == -Spacing || p.x == 0 || p.x == Spacing
    ensures i < Cells ==> p.y == 0 || p.y == -Spacing || p.y == -2 * Spacing
    ensures p.y <= 0
  {
    Position(((i % Columns) - 1) * Spacing, -((i / Columns) * Spacing))
  }

  /** Reads a grid cell back as the index of the sphere placed there. */
  function GridIndex(p: Position): int
  {
    (-p.y / Spacing) * Columns + (p.x / Spacing + 1)
  }

  /** Reading a sphere's position back gives its index. */
  lemma GridIndexInvertsPosition(i: nat)
    ensures GridIndex(GridPosition(i)) == i
  {
  }

  /** Different spheres never share a grid cell. */
  lemma GridPositionInjective(i: nat, j: nat)
    requires i != j
    ensures GridPosition(i) != GridPosition(j)
  {
  }

  /** The grid holding spheres 0 .. n-1, in the order they are added. */
  function Layout(n: nat): (s: seq<Sphere>)
    ensures |s| == n
  {
    seq(n, i requires 0 <= i < n => Sphere(GridPosition(i), SphereColor))
  }

  /** A sphere's position depends on its index only: the grid for n + 1
      spheres is the grid for n with one sphere appended at index n's cell. */
  lemma LayoutGrows(n: nat)
    ensures Layout(n + 1) == Layout(n) + [Sphere(GridPosition(n), SphereColor)]
  {
  }

  /** No two spheres of a layout share a cell. */
  lemma LayoutPositionsDistinct(n: nat, i: nat, j: nat)
    requires i < n && j < n && i != j
    ensures Layout(n)[i].position != Layout(n)[j].position
  {
  }

  /** The rebuild run whenever `count` changes: remove every child of the
      scene, one at a time from the front, then add one sphere per index
      below `count`. */
  method Rebuild(children: seq<Sphere>, count: int) returns (scene: seq<Sphere>)
    ensures |scene| == Max(count, 0)
    ensures forall i :: 0 <= i < |scene| ==> scene[i] == Sphere(GridPosition(i), SphereColor)
    ensures count >= 0 ==> scene == Layout(count)
  {
    scene := children;
    while |scene| > 0
      decreases |scene|
    {
      scene := scene[1..];
    }
    var i := 0;
    while i < count
      invariant 0 <= i == |scene|
      invariant i <= Max(count, 0)
      invariant forall k :: 0 <= k < i ==> scene[k] == Sphere(GridPosition(k), SphereColor)
    {
      scene := scene + [Sphere(GridPosition(i), SphereColor)];
      i := i + 1;
    }
  }
}
