/** Material choice for the planet and ring meshes. Texture loading is an
    oracle: a loader either sets up a texture for a path or throws while doing
    so. What happens after setup is not modelled: the success callback re-runs
    the resize step and renders, the error callback logs and renders, and the
    progress callback does nothing. */
module Materials {

  import opened Wrappers
  import opened PlanetTable
  import opened Scene

  /** A texture loader, given by the set of paths whose synchronous load
      setup throws. */
  datatype Loader = Loader(throwsOn: set<string>)

  const RingTexturePath: string := "/planets/2k_saturn_ring_alpha.png"
  const RingFallbackColor: int := 0xc4a484
  const RingTextureOpacity: nat := 90
  const RingFallbackOpacity: nat := 80

  predicate StartsWithSlash(s: string) { |s| > 0 && s[0] == '/' }

  /** Roots a texture path at "/" unless it already is. */
  function NormalizePath(s: string): (r: string)
    ensures StartsWithSlash(r)
    ensures StartsWithSlash(s) ==> r == s
    ensures !StartsWithSlash(s) ==> |r| == |s| + 1 && r[1..] == s
  {
    if StartsWithSlash(s) then s else "/" + s
  }

  lemma NormalizePathIdempotent(s: string)
    ensures NormalizePath(NormalizePath(s)) == NormalizePath(s)
  {
  }

  /** Setting up a load throws when the path is one the loader rejects, or
      when there is no loader at all (calling `load` on a null reference). */
  predicate SetupThrows(loader: Option<Loader>, path: string)
  {
    loader.None? || path in loader.value.throwsOn
  }

  /** The planet's material: texture-mapped when the record has a texture,
      a loader exists and setup does not throw; flat in the planet's own
      colour otherwise. Opaque either way. */
  function PlanetMaterial(p: Planet, loader: Option<Loader>): (m: Material)
    ensures !m.transparent && m.opacityPercent.None? && m.side == FrontSide
    ensures m.surface.FlatColor? <==>
      !HasTexture(p) || SetupThrows(loader, NormalizePath(p.texture.value))
    ensures m.surface.FlatColor? ==> m.surface.color == p.color
    ensures m.surface.TextureMap? ==>
      HasTexture(p) && m.surface.path == NormalizePath(p.texture.value)
    ensures m.surface.TextureMap? ==> StartsWithSlash(m.surface.path)
  {
    var flat := Material(FlatColor(p.color), false, None, FrontSide);
    if HasTexture(p) && loader.Some? then
      var path := NormalizePath(p.texture.value);
      if path in loader.value.throwsOn then flat
      else Material(TextureMap(path), false, None, FrontSide)
    else
      flat
  }

  /** Saturn's ring material: the ring image at 90% opacity, or, when setup
      throws, a flat tan colour at 80%. Transparent and double-sided either way. */
  function RingMaterial(loader: Option<Loader>): (m: Material)
    ensures m.transparent && m.side == DoubleSide
    ensures m.surface.TextureMap? <==> !SetupThrows(loader, RingTexturePath)
    ensures m.surface.TextureMap? ==>
      m.surface.path == RingTexturePath && m.opacityPercent == Some(RingTextureOpacity)
    ensures m.surface.FlatColor? ==>
      m.surface.color == RingFallbackColor && m.opacityPercent == Some(RingFallbackOpacity)
  {
    if SetupThrows(loader, RingTexturePath) then
      Material(FlatColor(RingFallbackColor), true, Some(RingFallbackOpacity), DoubleSide)
    else
      Material(TextureMap(RingTexturePath), true, Some(RingTextureOpacity), DoubleSide)
  }

  /** For the table's planets the path handed to the loader is the one in
      the record, and the choice comes down to whether setup throws. */
  lemma TablePlanetMaterial(i: int, loader: Option<Loader>)
    requires ValidIndex(i)
    ensures PlanetMaterial(Planets[i], loader).surface ==
      if SetupThrows(loader, Planets[i].texture.value) then FlatColor(Planets[i].color)
      else TextureMap(Planets[i].texture.value)
  {
  }

}
