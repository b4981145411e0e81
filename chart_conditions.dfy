/** Chart conditions that compare two longitudes: whether the chart is a day
    chart (`is_day_chart`), and whether a planet is combust or cazimi, that
    is, too close to the Sun (`is_planet_combust`, `is_planet_cazimi`). */
module ChartConditions {
  import opened Angles
  import opened Zodiac
  import opened ZodiacLocator

  /** `is_day_chart`: the Sun lies on the half of the circle that runs from
      the Ascendant forward to the Descendant. When that half wraps past 0
      degrees the test is split in two. For normalised longitudes this is
      exactly the Sun being less than half a turn ahead of the Ascendant. */
  function IsDayChart(sunLongitude: real, ascendantLongitude: real): (day: bool)
    ensures 0.0 <= sunLongitude < 360.0 && 0.0 <= ascendantLongitude < 360.0 ==>
      (day <==> Mod360(sunLongitude - ascendantLongitude) < 180.0)
  {
    var descendantLongitude := OppositePoint(ascendantLongitude);
    var day :=
      if ascendantLongitude < descendantLongitude then
        ascendantLongitude <= sunLongitude < descendantLongitude
      else
        sunLongitude < descendantLongitude || sunLongitude >= ascendantLongitude;
    if !(0.0 <= sunLongitude < 360.0 && 0.0 <= ascendantLongitude < 360.0) then
      day
    else if ascendantLongitude < 180.0 then
      Mod360OfNormalised(ascendantLongitude + 180.0);
      Mod360OfDifference(sunLongitude - ascendantLongitude);
      day
    else
      Mod360Unique(ascendantLongitude + 180.0, ascendantLongitude - 180.0, -1);
      Mod360OfDifference(sunLongitude - ascendantLongitude);
      day
  }

  /** The Sun on the Ascendant makes a day chart; the Sun on the Descendant
      makes a night chart. */
  lemma DayChartOnTheHorizon(ascendantLongitude: real)
    requires 0.0 <= ascendantLongitude < 360.0
    ensures IsDayChart(ascendantLongitude, ascendantLongitude)
    ensures !IsDayChart(OppositePoint(ascendantLongitude), ascendantLongitude)
  {
    Mod360OfNormalised(0.0);
  }

  /** Putting the Descendant where the Ascendant was always turns a day chart
      into a night chart and back. */
  lemma DayChartFlipsAcrossHorizon(sunLongitude: real, ascendantLongitude: real)
    requires 0.0 <= sunLongitude < 360.0 && 0.0 <= ascendantLongitude < 360.0
    ensures IsDayChart(sunLongitude, OppositePoint(ascendantLongitude))
        == !IsDayChart(sunLongitude, ascendantLongitude)
  {
    var desc := OppositePoint(ascendantLongitude);
    if ascendantLongitude < 180.0 {
      Mod360OfNormalised(ascendantLongitude + 180.0);
    } else {
      Mod360Unique(ascendantLongitude + 180.0, ascendantLongitude - 180.0, -1);
    }
    Mod360OfDifference(sunLongitude - ascendantLongitude);
    Mod360OfDifference(sunLongitude - desc);
  }

  function Abs(x: real): (r: real)
    ensures 0.0 <= r && (r == x || r == -x)
  {
    if x >= 0.0 then x else -x
  }

  /** The distance `is_planet_combust` compares: the absolute difference of
      the longitudes, replaced by 360 minus it when it exceeds 180. For
      normalised longitudes this is the shorter of the two arcs between them. */
  function CombustDistance(planetLongitude: real, sunLongitude: real): (d: real)
    ensures 0.0 <= planetLongitude < 360.0 && 0.0 <= sunLongitude < 360.0 ==>
      && 0.0 <= d <= 180.0
      && d == Min(Mod360(planetLongitude - sunLongitude), Mod360(sunLongitude - planetLongitude))
  {
    var dist := Abs(planetLongitude - sunLongitude);
    var d := if dist > 180.0 then 360.0 - dist else dist;
    if 0.0 <= planetLongitude < 360.0 && 0.0 <= sunLongitude < 360.0 then
      Mod360OfDifference(planetLongitude - sunLongitude);
      Mod360OfDifference(sunLongitude - planetLongitude);
      d
    else
      d
  }

  function Min(a: real, b: real): real {
    if a <= b then a else b
  }

  const CombustLimit: real := 8.5

  /** `is_planet_combust`: same sign as the Sun and strictly closer than 8.5
      degrees, measured for normalised longitudes along the shorter arc. */
  function IsCombust(planetLongitude: real, planetSign: string, sunLongitude: real, sunSign: string): (c: bool)
    ensures c ==> planetSign == sunSign
    ensures 0.0 <= planetLongitude < 360.0 && 0.0 <= sunLongitude < 360.0 ==>
      (c <==> (planetSign == sunSign
                && Min(Mod360(planetLongitude - sunLongitude), Mod360(sunLongitude - planetLongitude)) < CombustLimit))
  {
    if planetSign != sunSign then false
    else CombustDistance(planetLongitude, sunLongitude) < CombustLimit
  }

  /** 17.5 minutes of arc, as the source writes it. */
  const CazimiLimit: real := 0.2916667

  /** `is_planet_cazimi`: same sign as the Sun and at most 0.2916667 degrees
      apart, measured as a plain absolute difference with no wrap-around. */
  function IsCazimi(planetLongitude: real, planetSign: string, sunLongitude: real, sunSign: string): (c: bool)
    ensures c <==> (planetSign == sunSign
                    && sunLongitude - CazimiLimit <= planetLongitude <= sunLongitude + CazimiLimit)
  {
    if planetSign != sunSign then false
    else Abs(planetLongitude - sunLongitude) <= CazimiLimit
  }

  /** Neither condition holds across a sign boundary, and both are symmetric
      in the planet and the Sun. */
  lemma CombustAndCazimiSymmetric(planetLongitude: real, planetSign: string, sunLongitude: real, sunSign: string)
    ensures planetSign != sunSign ==>
      !IsCombust(planetLongitude, planetSign, sunLongitude, sunSign)
      && !IsCazimi(planetLongitude, planetSign, sunLongitude, sunSign)
    ensures IsCombust(planetLongitude, planetSign, sunLongitude, sunSign)
         == IsCombust(sunLongitude, sunSign, planetLongitude, planetSign)
    ensures IsCazimi(planetLongitude, planetSign, sunLongitude, sunSign)
         == IsCazimi(sunLongitude, sunSign, planetLongitude, planetSign)
  {
  }

  /** Cazimi is the stricter condition: a cazimi planet is always combust. */
  lemma CazimiImpliesCombust(planetLongitude: real, planetSign: string, sunLongitude: real, sunSign: string)
    ensures IsCazimi(planetLongitude, planetSign, sunLongitude, sunSign)
        ==> IsCombust(planetLongitude, planetSign, sunLongitude, sunSign)
  {
  }

  /** When the sign names are the signs of the two normalised longitudes, the
      two bodies are less than 30 degrees apart, the wrap-around branch of
      `is_planet_combust` is never taken, and the two distances coincide. */
  lemma SameSignNeverWraps(planetLongitude: real, sunLongitude: real)
    requires 0.0 <= planetLongitude < 360.0 && 0.0 <= sunLongitude < 360.0
    requires SignOf(planetLongitude) == SignOf(sunLongitude)
    ensures Abs(planetLongitude - sunLongitude) < 30.0
    ensures CombustDistance(planetLongitude, sunLongitude) == Abs(planetLongitude - sunLongitude)
    ensures IsCombust(planetLongitude, SignName(SignOf(planetLongitude)), sunLongitude, SignName(SignOf(sunLongitude)))
        <==> Abs(planetLongitude - sunLongitude) < 8.5
  {
    Mod360OfNormalised(planetLongitude);
    Mod360OfNormalised(sunLongitude);
  }

  /** Worked cases with both bodies in Gemini (60 to 90 degrees): 5 degrees
      apart is combust, 8.5 and 9 degrees apart are not; 0.2 degrees apart is
      cazimi, 0.3 degrees apart is not. */
  lemma CombustAndCazimiExamples()
    ensures IsCombust(70.0, "Gemini", 75.0, "Gemini")
    ensures !IsCombust(70.0, "Gemini", 78.5, "Gemini")
    ensures !IsCombust(70.0, "Gemini", 79.0, "Gemini")
    ensures IsCazimi(70.0, "Gemini", 70.2, "Gemini")
    ensures !IsCazimi(70.0, "Gemini", 70.3, "Gemini")
    ensures !IsCombust(60.5, "Gemini", 59.5, "Taurus")
  {
  }
}
