/** The essential-dignity predicates: domicile, exaltation, super-exaltation,
    triplicity, detriment and fall. Each is a lookup in a constant table keyed
    by planet name (by sign name for triplicity). The Python dictionaries are
    read with `.get`, so an unknown planet yields None, which equals no sign
    and makes the predicate false; triplicity indexes its table directly, so
    an unknown sign raises KeyError. */
module Dignities {
  import opened Wrappers
  import opened Angles
  import opened Zodiac

  // ---------------------------------------------------------------- tables

  /** `planet_rulerships`: the sign or signs each planet rules. */
  function DomicileSigns(p: Planet): seq<Sign> {
    match p
    case Sun => [Leo]
    case Moon => [Cancer]
    case Mercury => [Gemini, Virgo]
    case Venus => [Taurus, Libra]
    case Mars => [Aries, Scorpio]
    case Jupiter => [Sagittarius, Pisces]
    case Saturn => [Capricorn, Aquarius]
  }

  /** `planet_exaltations`. */
  function ExaltationSign(p: Planet): Sign {
    match p
    case Sun => Aries
    case Moon => Taurus
    case Mercury => Virgo
    case Venus => Pisces
    case Mars => Capricorn
    case Jupiter => Cancer
    case Saturn => Libra
  }

  /** `planet_super_exaltations`: the exaltation sign and the whole degree of
      greatest strength within it. */
  function SuperExaltation(p: Planet): (Sign, int) {
    match p
    case Sun => (Aries, 19)
    case Moon => (Taurus, 3)
    case Mercury => (Virgo, 15)
    case Venus => (Pisces, 27)
    case Mars => (Capricorn, 28)
    case Jupiter => (Cancer, 15)
    case Saturn => (Libra, 21)
  }

  /** `triplicity_rulers`: the (day ruler, night ruler) pair of each sign. */
  function TriplicityRulers(s: Sign): (Planet, Planet) {
    match s
    case Aries => (Sun, Jupiter)
    case Taurus => (Venus, Moon)
    case Gemini => (Saturn, Mercury)
    case Cancer => (Mars, Mars)
    case Leo => (Sun, Jupiter)
    case Virgo => (Venus, Moon)
    case Libra => (Saturn, Mercury)
    case Scorpio => (Mars, Mars)
    case Sagittarius => (Sun, Jupiter)
    case Capricorn => (Venus, Moon)
    case Aquarius => (Saturn, Mercury)
    case Pisces => (Mars, Mars)
  }

  /** `planet_detriments`. */
  function DetrimentSigns(p: Planet): seq<Sign> {
    match p
    case Sun => [Aquarius]
    case Moon => [Capricorn]
    case Mercury => [Sagittarius, Pisces]
    case Venus => [Aries, Scorpio]
    case Mars => [Taurus, Libra]
    case Jupiter => [Gemini, Virgo]
    case Saturn => [Cancer, Leo]
  }

  /** `planet_falls`. */
  function FallSign(p: Planet): Sign {
    match p
    case Sun => Libra
    case Moon => Scorpio
    case Mercury => Pisces
    case Venus => Virgo
    case Mars => Cancer
    case Jupiter => Capricorn
    case Saturn => Aries
  }

  // ------------------------------------------------------------ predicates

  /** `is_planet_in_its_traditional_domicile`. The Python code tests list
      membership for planets with two signs and string equality for the
      Sun and Moon; both come to membership of the sign in the table row. */
  predicate IsInDomicile(planet: string, planetSign: string)
    ensures IsInDomicile(planet, planetSign) ==> ParsePlanet(planet).Some? && ParseSign(planetSign).Some?
  {
    match ParsePlanet(planet)
    case None => false
    case Some(p) => ParseSign(planetSign).Some? && ParseSign(planetSign).value in DomicileSigns(p)
  }

  /** `is_planet_in_its_traditional_exaltation`. */
  predicate IsExalted(planet: string, planetSign: string)
    ensures IsExalted(planet, planetSign) ==> ParsePlanet(planet).Some? && ParseSign(planetSign).Some?
  {
    match ParsePlanet(planet)
    case None => false
    case Some(p) => ParseSign(planetSign) == Some(ExaltationSign(p))
  }

  /** `is_planet_super_exalted`: the exaltation sign of the table and the
      degree truncated toward zero, as Python's `int()` does. */
  predicate IsSuperExalted(planet: string, planetSign: string, planetDegree: real)
    ensures IsSuperExalted(planet, planetSign, planetDegree) ==> ParsePlanet(planet).Some? && ParseSign(planetSign).Some?
  {
    match ParsePlanet(planet)
    case None => false
    case Some(p) =>
      var (exaltationSign, superExaltationDegree) := SuperExaltation(p);
      ParseSign(planetSign) == Some(exaltationSign) && TruncateToInt(planetDegree) == superExaltationDegree
  }

  /** `is_planet_in_its_triplicity`: the day ruler in a day chart, the night
      ruler in a night chart; the planet name is compared with the ruler's
      name, and a sign missing from the table raises KeyError. */
  function IsInTriplicity(planet: string, sign: string, dayChart: bool): (r: Result<bool, PyError>)
    ensures r.Failure? <==> ParseSign(sign).None?
    ensures r.Failure? ==> r.error == KeyError(sign)
    ensures r == Success(true) ==> ParsePlanet(planet).Some?
  {
    match ParseSign(sign)
    case None => Failure(KeyError(sign))
    case Some(s) =>
      var ruler := if dayChart then TriplicityRulers(s).0 else TriplicityRulers(s).1;
      if planet == PlanetName(ruler) then
        ParsePlanetName(planet, ruler);
        Success(true)
      else
        Success(false)
  }

  /** `is_planet_in_its_traditional_detriment`. */
  predicate IsInDetriment(planet: string, planetSign: string)
    ensures IsInDetriment(planet, planetSign) ==> ParsePlanet(planet).Some? && ParseSign(planetSign).Some?
  {
    match ParsePlanet(planet)
    case None => false
    case Some(p) => ParseSign(planetSign).Some? && ParseSign(planetSign).value in DetrimentSigns(p)
  }

  /** `is_planet_in_its_traditional_fall`. */
  predicate IsInFall(planet: string, planetSign: string)
    ensures IsInFall(planet, planetSign) ==> ParsePlanet(planet).Some? && ParseSign(planetSign).Some?
  {
    match ParsePlanet(planet)
    case None => false
    case Some(p) => ParseSign(planetSign) == Some(FallSign(p))
  }

  // ------------------------------------------- reference definitions, lemmas

  /** The ruler of each sign, read the other way round: an independent
      statement of the rulership scheme. */
  function DomicileRuler(s: Sign): Planet {
    match s
    case Aries => Mars
    case Taurus => Venus
    case Gemini => Mercury
    case Cancer => Moon
    case Leo => Sun
    case Virgo => Mercury
    case Libra => Venus
    case Scorpio => Mars
    case Sagittarius => Jupiter
    case Capricorn => Saturn
    case Aquarius => Saturn
    case Pisces => Jupiter
  }

  /** Every sign is the domicile of exactly one of the seven planets. */
  lemma DomicileHasOneRuler(p: Planet, s: Sign)
    ensures IsInDomicile(PlanetName(p), SignName(s)) <==> p == DomicileRuler(s)
  {
    ParsePlanetName(PlanetName(p), p);
    ParseSignName(SignName(s), s);
    match s
    case Aries =>
    case Taurus =>
    case Gemini =>
    case Cancer =>
    case Leo =>
    case Virgo =>
    case Libra =>
    case Scorpio =>
    case Sagittarius =>
    case Capricorn =>
    case Aquarius =>
    case Pisces =>
  }

  /** A body that is not one of the seven planets has no dignity and no
      debility, and is never a triplicity ruler. */
  lemma UnknownPlanetHasNoDignity(planet: string, sign: string, degree: real, dayChart: bool)
    requires ParsePlanet(planet).None?
    ensures !IsInDomicile(planet, sign) && !IsExalted(planet, sign)
    ensures !IsSuperExalted(planet, sign, degree)
    ensures !IsInDetriment(planet, sign) && !IsInFall(planet, sign)
    ensures ParseSign(sign).Some? ==> IsInTriplicity(planet, sign, dayChart) == Success(false)
  {
  }

  /** Row by row, the detriment table lists the signs opposite the domicile
      table's. */
  lemma DetrimentRowIsOppositeDomicileRow(p: Planet, s: Sign)
    ensures s in DetrimentSigns(p) <==> Opposite(s) in DomicileSigns(p)
  {
    match s
    case Aries =>
    case Taurus =>
    case Gemini =>
    case Cancer =>
    case Leo =>
    case Virgo =>
    case Libra =>
    case Scorpio =>
    case Sagittarius =>
    case Capricorn =>
    case Aquarius =>
    case Pisces =>
  }

  /** Detriment is domicile in the opposite sign. */
  lemma DetrimentIsOppositeDomicile(planet: string, s: Sign)
    ensures IsInDetriment(planet, SignName(s)) <==> IsInDomicile(planet, SignName(Opposite(s)))
  {
    ParseSignName(SignName(s), s);
    ParseSignName(SignName(Opposite(s)), Opposite(s));
    match ParsePlanet(planet)
    case None =>
    case Some(p) => DetrimentRowIsOppositeDomicileRow(p, s);
  }

  /** No planet is ever in domicile and detriment at once. */
  lemma DomicileExcludesDetriment(planet: string, planetSign: string)
    ensures !(IsInDomicile(planet, planetSign) && IsInDetriment(planet, planetSign))
  {
    if ParseSign(planetSign).Some? {
      var s := ParseSign(planetSign).value;
      DetrimentIsOppositeDomicile(planet, s);
      OppositeInvolution(s);
      if ParsePlanet(planet).Some? {
        var p := ParsePlanet(planet).value;
        ParsePlanetName(planet, p);
        DomicileHasOneRuler(p, s);
        DomicileHasOneRuler(p, Opposite(s));
        match s
        case Aries =>
        case Taurus =>
        case Gemini =>
        case Cancer =>
        case Leo =>
        case Virgo =>
        case Libra =>
        case Scorpio =>
        case Sagittarius =>
        case Capricorn =>
        case Aquarius =>
        case Pisces =>
      }
    }
  }

  /** Each planet is exalted in exactly one sign, the one in its table row. */
  lemma ExaltationIsOneSign(p: Planet, s: Sign)
    ensures IsExalted(PlanetName(p), SignName(s)) <==> s == ExaltationSign(p)
  {
    ParsePlanetName(PlanetName(p), p);
    ParseSignName(SignName(s), s);
  }

  /** Row by row, the fall table lists the sign opposite the exaltation
      table's. */
  lemma FallRowIsOppositeExaltationRow(p: Planet)
    ensures FallSign(p) == Opposite(ExaltationSign(p))
  {
    match p
    case Sun =>
    case Moon =>
    case Mercury =>
    case Venus =>
    case Mars =>
    case Jupiter =>
    case Saturn =>
  }

  /** Fall is exaltation in the opposite sign. */
  lemma FallIsOppositeExaltation(planet: string, s: Sign)
    ensures IsInFall(planet, SignName(s)) <==> IsExalted(planet, SignName(Opposite(s)))
  {
    ParseSignName(SignName(s), s);
    ParseSignName(SignName(Opposite(s)), Opposite(s));
    match ParsePlanet(planet)
    case None =>
    case Some(p) =>
      FallRowIsOppositeExaltationRow(p);
      OppositeInvolution(s);
      OppositeInvolution(ExaltationSign(p));
  }

  /** No planet is ever exalted and in fall at once. */
  lemma ExaltationExcludesFall(planet: string, planetSign: string)
    ensures !(IsExalted(planet, planetSign) && IsInFall(planet, planetSign))
  {
    if ParsePlanet(planet).Some? {
      var p := ParsePlanet(planet).value;
      match p
      case Sun =>
      case Moon =>
      case Mercury =>
      case Venus =>
      case Mars =>
      case Jupiter =>
      case Saturn =>
    }
  }

  /** Super-exaltation is a degree within the exaltation sign: it implies
      exaltation. */
  lemma SuperExaltedIsExalted(planet: string, planetSign: string, planetDegree: real)
    ensures IsSuperExalted(planet, planetSign, planetDegree) ==> IsExalted(planet, planetSign)
  {
    if ParsePlanet(planet).Some? {
      var p := ParsePlanet(planet).value;
      match p
      case Sun =>
      case Moon =>
      case Mercury =>
      case Venus =>
      case Mars =>
      case Jupiter =>
      case Saturn =>
    }
  }

  /** In its exaltation sign a planet is super-exalted on the whole degree
      [d, d + 1) that starts at its table degree d, and on no other. */
  lemma SuperExaltedOnItsWholeDegree(p: Planet, planetDegree: real)
    ensures IsSuperExalted(PlanetName(p), SignName(ExaltationSign(p)), planetDegree)
        <==> SuperExaltation(p).1 as real <= planetDegree < SuperExaltation(p).1 as real + 1.0
  {
    ParsePlanetName(PlanetName(p), p);
    ParseSignName(SignName(ExaltationSign(p)), ExaltationSign(p));
    assert SuperExaltation(p).0 == ExaltationSign(p) && SuperExaltation(p).1 > 0 by {
      match p
      case Sun =>
      case Moon =>
      case Mercury =>
      case Venus =>
      case Mars =>
      case Jupiter =>
      case Saturn =>
    }
  }

  /** The truncation boundary: the Sun in Aries is super-exalted at 19.0 and
      19.99 degrees, not at 18.99. */
  lemma SuperExaltationExamples()
    ensures IsSuperExalted("Sun", "Aries", 19.0)
    ensures IsSuperExalted("Sun", "Aries", 19.99)
    ensures !IsSuperExalted("Sun", "Aries", 18.99)
  {
  }

  /** The triplicity rulers of each element: fire, earth, air, water. */
  function ElementRulers(e: Element): (Planet, Planet) {
    match e
    case Fire => (Sun, Jupiter)
    case Earth => (Venus, Moon)
    case Air => (Saturn, Mercury)
    case Water => (Mars, Mars)
  }

  /** The triplicity table depends on the sign only through its element, and
      for each sign and chart exactly one planet qualifies: the first ruler
      of the element by day, the second by night. Water signs give Mars
      either way. */
  lemma TriplicityFollowsElement(p: Planet, s: Sign, dayChart: bool)
    ensures TriplicityRulers(s) == ElementRulers(ElementOf(s))
    ensures IsInTriplicity(PlanetName(p), SignName(s), dayChart)
        == Success(p == if dayChart then ElementRulers(ElementOf(s)).0 else ElementRulers(ElementOf(s)).1)
    ensures ElementOf(s) == Water ==> IsInTriplicity(PlanetName(p), SignName(s), dayChart) == Success(p == Mars)
  {
    ParseSignName(SignName(s), s);
    var ruler := if dayChart then TriplicityRulers(s).0 else TriplicityRulers(s).1;
    PlanetNameInjective(p, ruler);
    match s
    case Aries =>
    case Taurus =>
    case Gemini =>
    case Cancer =>
    case Leo =>
    case Virgo =>
    case Libra =>
    case Scorpio =>
    case Sagittarius =>
    case Capricorn =>
    case Aquarius =>
    case Pisces =>
  }
}
