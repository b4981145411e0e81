/** The two enumerations every table of the engine is keyed by, and the names
    the Python code uses for them. The Python functions receive and return
    these names as strings; `ParseSign` and `ParsePlanet` play the part of
    the dictionary lookups that fail on an unknown name. */
module Zodiac {
  import opened Wrappers

  /** The twelve signs in zodiacal order; sign `i` owns [30i, 30i + 30). */
  datatype Sign =
    | Aries | Taurus | Gemini | Cancer | Leo | Virgo
    | Libra | Scorpio | Sagittarius | Capricorn | Aquarius | Pisces
  {
    function Index(): (i: nat)
      ensures i < 12
    {
      match this
      case Aries => 0
      case Taurus => 1
      case Gemini => 2
      case Cancer => 3
      case Leo => 4
      case Virgo => 5
      case Libra => 6
      case Scorpio => 7
      case Sagittarius => 8
      case Capricorn => 9
      case Aquarius => 10
      case Pisces => 11
    }

    /** The first degree of the sign on the ecliptic. */
    function Start(): (d: int)
      ensures 0 <= d <= 330 && d % 30 == 0
    {
      30 * Index()
    }
  }

  function SignAt(i: int): (s: Sign)
    requires 0 <= i < 12
    ensures s.Index() == i
  {
    [Aries, Taurus, Gemini, Cancer, Leo, Virgo,
     Libra, Scorpio, Sagittarius, Capricorn, Aquarius, Pisces][i]
  }

  lemma SignAtIndex(s: Sign)
    ensures SignAt(s.Index()) == s
  {
  }

  /** The sign six places further on, across the circle. */
  function Opposite(s: Sign): (o: Sign)
    ensures o != s
    ensures o.Index() == (s.Index() + 6) % 12
  {
    match s
    case Aries => Libra
    case Taurus => Scorpio
    case Gemini => Sagittarius
    case Cancer => Capricorn
    case Leo => Aquarius
    case Virgo => Pisces
    case Libra => Aries
    case Scorpio => Taurus
    case Sagittarius => Gemini
    case Capricorn => Cancer
    case Aquarius => Leo
    case Pisces => Virgo
  }

  lemma OppositeInvolution(s: Sign)
    ensures Opposite(Opposite(s)) == s
  {
  }

  /** The element, as the sign's index modulo 4: fire, earth, air, water. */
  datatype Element = Fire | Earth | Air | Water

  function ElementOf(s: Sign): (e: Element)
    ensures e == Fire <==> s in {Aries, Leo, Sagittarius}
    ensures e == Water <==> s in {Cancer, Scorpio, Pisces}
  {
    match s.Index() % 4
    case 0 => Fire
    case 1 => Earth
    case 2 => Air
    case _ => Water
  }

  function SignName(s: Sign): string {
    match s
    case Aries => "Aries"
    case Taurus => "Taurus"
    case Gemini => "Gemini"
    case Cancer => "Cancer"
    case Leo => "Leo"
    case Virgo => "Virgo"
    case Libra => "Libra"
    case Scorpio => "Scorpio"
    case Sagittarius => "Sagittarius"
    case Capricorn => "Capricorn"
    case Aquarius => "Aquarius"
    case Pisces => "Pisces"
  }

  /** The sign a name stands for, or None for a name that is no sign. */
  function ParseSign(name: string): (r: Option<Sign>)
    ensures r.Some? ==> SignName(r.value) == name
  {
    if name == "Aries" then Some(Aries)
    else if name == "Taurus" then Some(Taurus)
    else if name == "Gemini" then Some(Gemini)
    else if name == "Cancer" then Some(Cancer)
    else if name == "Leo" then Some(Leo)
    else if name == "Virgo" then Some(Virgo)
    else if name == "Libra" then Some(Libra)
    else if name == "Scorpio" then Some(Scorpio)
    else if name == "Sagittarius" then Some(Sagittarius)
    else if name == "Capricorn" then Some(Capricorn)
    else if name == "Aquarius" then Some(Aquarius)
    else if name == "Pisces" then Some(Pisces)
    else None
  }

  /** Parsing is the inverse of naming, in both directions. */
  lemma ParseSignName(name: string, s: Sign)
    ensures ParseSign(name) == Some(s) <==> name == SignName(s)
  {
    match s
    case Aries =>
    case Taurus =>
    case Gemini =>
    case Cancer =>
    case Leo =>
    case Virgo =>
    case Libra =>
    case Scorpio =>
    case Sagittarius =>
    case Capricorn =>
    case Aquarius =>
    case Pisces =>
  }

  /** The seven classical planets, the only bodies the dignity tables know. */
  datatype Planet = Sun | Moon | Mercury | Venus | Mars | Jupiter | Saturn

  function PlanetName(p: Planet): string {
    match p
    case Sun => "Sun"
    case Moon => "Moon"
    case Mercury => "Mercury"
    case Venus => "Venus"
    case Mars => "Mars"
    case Jupiter => "Jupiter"
    case Saturn => "Saturn"
  }

  /** The planet a name stands for, or None for any other body or string. */
  function ParsePlanet(name: string): (r: Option<Planet>)
    ensures r.Some? ==> PlanetName(r.value) == name
  {
    if name == "Sun" then Some(Sun)
    else if name == "Moon" then Some(Moon)
    else if name == "Mercury" then Some(Mercury)
    else if name == "Venus" then Some(Venus)
    else if name == "Mars" then Some(Mars)
    else if name == "Jupiter" then Some(Jupiter)
    else if name == "Saturn" then Some(Saturn)
    else None
  }

  lemma ParsePlanetName(name: string, p: Planet)
    ensures ParsePlanet(name) == Some(p) <==> name == PlanetName(p)
  {
    match p
    case Sun =>
    case Moon =>
    case Mercury =>
    case Venus =>
    case Mars =>
    case Jupiter =>
    case Saturn =>
  }

  lemma PlanetNameInjective(p: Planet, q: Planet)
    ensures PlanetName(p) == PlanetName(q) ==> p == q
  {
    ParsePlanetName(PlanetName(p), p);
    ParsePlanetName(PlanetName(p), q);
  }
}
