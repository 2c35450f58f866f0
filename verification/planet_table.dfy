/** The viewer's static table of planets, in the order of the selector buttons. */
module PlanetTable {

  import opened Wrappers

  /** One planet record. `sizeTenths` is the relative size factor times ten
      (0.8 becomes 8); `texture` is absent when the record names no image. */
  datatype Planet = Planet(
    name: string,
    diameterKm: nat,
    distanceMillionKm: nat,
    color: int,
    sizeTenths: nat,
    texture: Option<string>)

  /** The name that earns a planet a ring mesh. */
  const SaturnName: string := "Saturn"

  const Planets: seq<Planet> := [
    Planet("Mercury", 4879, 58, 0xffd700, 8, Some("/planets/2k_mercury.jpg")),
    Planet("Venus", 12104, 108, 0xffa500, 12, Some("/planets/2k_venus_atmosphere.jpg")),
    Planet("Earth", 12756, 150, 0x0080ff, 13, Some("/planets/2k_earth_daymap.jpg")),
    Planet("Mars", 6792, 228, 0xff4500, 10, Some("/planets/2k_mars.jpg")),
    Planet("Jupiter", 142984, 779, 0xffd700, 30, Some("/planets/2k_jupiter.jpg")),
    Planet("Saturn", 120536, 1434, 0xffa500, 28, Some("/planets/2k_saturn.jpg")),
    Planet("Uranus", 51118, 2873, 0x00ffff, 20, Some("/planets/2k_uranus.jpg")),
    Planet("Neptune", 49528, 4495, 0x4169e1, 20, Some("/planets/2k_neptune.jpg"))
  ]

  /** A texture reference counts only when it is a non-empty string, as with
      JavaScript truthiness. */
  predicate HasTexture(p: Planet)
  {
    p.texture.Some? && p.texture.value != ""
  }

  predicate ValidIndex(i: int) { 0 <= i < |Planets| }

  /** Eight planets, no name repeated, and Saturn is the sixth. */
  lemma TableShape()
    ensures |Planets| == 8
    ensures forall i, j :: 0 <= i < j < |Planets| ==> Planets[i].name != Planets[j].name
    ensures forall i :: 0 <= i < |Planets| ==> (Planets[i].name == SaturnName <==> i == 5)
  {
  }

  /** Every record carries a texture path that is already rooted at "/". */
  lemma TableTexturesRooted()
    ensures forall i :: 0 <= i < |Planets| ==>
      HasTexture(Planets[i]) && Planets[i].texture.value[0] == '/'
  {
  }
}
