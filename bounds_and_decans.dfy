/** The two sub-divisions of a sign and their rulers: the five unequal
    Ptolemaic bounds (`get_ptolemaic_bound_ruler`) and the three 10-degree
    decans in Chaldean order (`get_traditional_decan`). Both look the sign up
    in a constant table and search its bands with the same loop as the zodiac
    table. The bound lookup returns the string "Invalid sign or degree" for an
    unknown sign or a degree outside every band; the decan lookup returns
    None. One copy of the decan table stops after Leo; it is modelled as
    written beside the full one. */
module BoundsAndDecans {
  import opened Wrappers
  import opened Zodiac
  import opened Bands

  // ------------------------------------------------------------ bounds

  /** The `bounds` table: rows (lower, upper, ruler) become bands. */
  function BoundTable(s: Sign): seq<Band<Planet>> {
    match s
    case Aries =>
      [Band(0, 6, Jupiter), Band(6, 14, Venus), Band(14, 21, Mercury), Band(21, 26, Mars), Band(26, 30, Saturn)]
    case Taurus =>
      [Band(0, 8, Venus), Band(8, 15, Mercury), Band(15, 22, Jupiter), Band(22, 26, Saturn), Band(26, 30, Mars)]
    case Gemini =>
      [Band(0, 7, Mercury), Band(7, 14, Jupiter), Band(14, 21, Venus), Band(21, 25, Saturn), Band(25, 30, Mars)]
    case Cancer =>
      [Band(0, 6, Mars), Band(6, 13, Jupiter), Band(13, 20, Mercury), Band(20, 27, Venus), Band(27, 30, Saturn)]
    case Leo =>
      [Band(0, 6, Saturn), Band(6, 13, Mercury), Band(13, 19, Venus), Band(19, 25, Jupiter), Band(25, 30, Mars)]
    case Virgo =>
      [Band(0, 7, Mercury), Band(7, 13, Venus), Band(13, 18, Jupiter), Band(18, 24, Saturn), Band(24, 30, Mars)]
    case Libra =>
      [Band(0, 6, Saturn), Band(6, 11, Venus), Band(11, 19, Jupiter), Band(19, 24, Mercury), Band(24, 30, Mars)]
    case Scorpio =>
      [Band(0, 6, Mars), Band(6, 14, Jupiter), Band(14, 21, Venus), Band(21, 27, Mercury), Band(27, 30, Saturn)]
    case Sagittarius =>
      [Band(0, 8, Jupiter), Band(8, 14, Venus), Band(14, 19, Mercury), Band(19, 25, Saturn), Band(25, 30, Mars)]
    case Capricorn =>
      [Band(0, 6, Venus), Band(6, 12, Mercury), Band(12, 19, Jupiter), Band(19, 25, Mars), Band(25, 30, Saturn)]
    case Aquarius =>
      [Band(0, 6, Saturn), Band(6, 12, Mercury), Band(12, 20, Venus), Band(20, 25, Jupiter), Band(25, 30, Mars)]
    case Pisces =>
      [Band(0, 8, Venus), Band(8, 14, Jupiter), Band(14, 20, Mercury), Band(20, 26, Mars), Band(26, 30, Saturn)]
  }

  /** The rulers of a band list, in order. */
  function Rulers(bands: seq<Band<Planet>>): (rs: seq<Planet>)
    ensures |rs| == |bands|
    ensures forall i :: 0 <= i < |bands| ==> rs[i] == bands[i].tag
  {
    seq(|bands|, i requires 0 <= i < |bands| => bands[i].tag)
  }

  /** Every sign's bounds are five bands that tile [0, 30) without gap or
      overlap. */
  lemma BoundTableTiles(s: Sign)
    ensures |BoundTable(s)| == 5
    ensures Tiles(BoundTable(s), 30)
  {
    match s
    case Aries =>
    case Taurus =>
    case Gemini =>
    case Cancer =>
    case Leo =>
    case Virgo =>
    case Libra =>
    case Scorpio =>
    case Sagittarius =>
    case Capricorn =>
    case Aquarius =>
    case Pisces =>
  }

  /** Five rulers, among them each of the five planets other than the Sun and
      the Moon, which therefore appear once each. */
  predicate FiveRulers(rs: seq<Planet>) {
    && |rs| == 5
    && Saturn in rs && Jupiter in rs && Mars in rs && Venus in rs && Mercury in rs
  }

  /** Each of the five planets other than the Sun and the Moon rules exactly
      one bound of every sign, and the luminaries rule none. */
  lemma BoundTableRulers(s: Sign)
    ensures FiveRulers(Rulers(BoundTable(s)))
  {
    var b := BoundTable(s);
    match s
    case Aries => assert Rulers(b) == [Jupiter, Venus, Mercury, Mars, Saturn];
    case Taurus => assert Rulers(b) == [Venus, Mercury, Jupiter, Saturn, Mars];
    case Gemini => assert Rulers(b) == [Mercury, Jupiter, Venus, Saturn, Mars];
    case Cancer => assert Rulers(b) == [Mars, Jupiter, Mercury, Venus, Saturn];
    case Leo => assert Rulers(b) == [Saturn, Mercury, Venus, Jupiter, Mars];
    case Virgo => assert Rulers(b) == [Mercury, Venus, Jupiter, Saturn, Mars];
    case Libra => assert Rulers(b) == [Saturn, Venus, Jupiter, Mercury, Mars];
    case Scorpio => assert Rulers(b) == [Mars, Jupiter, Venus, Mercury, Saturn];
    case Sagittarius => assert Rulers(b) == [Jupiter, Venus, Mercury, Saturn, Mars];
    case Capricorn => assert Rulers(b) == [Venus, Mercury, Jupiter, Mars, Saturn];
    case Aquarius => assert Rulers(b) == [Saturn, Mercury, Venus, Jupiter, Mars];
    case Pisces => assert Rulers(b) == [Venus, Jupiter, Mercury, Mars, Saturn];
  }

  /** Five slots holding five distinct planets leave no room for a sixth. */
  lemma FiveRulersExcludeLuminaries(rs: seq<Planet>, p: Planet)
    requires FiveRulers(rs) && p in rs
    ensures p != Sun && p != Moon
  {
  }

  /** The ruler of the bound of sign `s` that holds the degree: defined
      exactly on [0, 30), and never a luminary. */
  function BoundRuler(s: Sign, degree: real): (p: Option<Planet>)
    ensures p.Some? <==> 0.0 <= degree < 30.0
    ensures p.Some? ==> p.value != Sun && p.value != Moon
  {
    BoundTableTiles(s);
    BoundTableRulers(s);
    TilesCover(BoundTable(s), 30, degree);
    var p := FirstTag(BoundTable(s), degree);
    if p.Some? then
      var k :| 0 <= k < |BoundTable(s)| && Holds(BoundTable(s)[k], degree) && BoundTable(s)[k].tag == p.value
        && forall i :: 0 <= i < k ==> !Holds(BoundTable(s)[i], degree);
      assert p.value == Rulers(BoundTable(s))[k];
      FiveRulersExcludeLuminaries(Rulers(BoundTable(s)), p.value);
      p
    else
      p
  }

  /** Worked cases: 10 degrees of Aries is in Venus's bound, 29.5 degrees of
      Pisces in Saturn's, 6 degrees of Aries starts Venus's bound, and 30
      degrees is in no bound. */
  lemma BoundRulerExamples()
    ensures BoundRuler(Aries, 10.0) == Some(Venus)
    ensures BoundRuler(Aries, 6.0) == Some(Venus) && BoundRuler(Aries, 5.99) == Some(Jupiter)
    ensures BoundRuler(Pisces, 29.5) == Some(Saturn)
    ensures BoundRuler(Leo, 30.0) == None
  {
  }

  const InvalidSignOrDegree: string := "Invalid sign or degree"

  /** `get_ptolemaic_bound_ruler`: the ruler of the bound holding the degree.
      It fails, with the sentinel string, exactly for an unknown sign or a
      degree outside [0, 30); a successful result is never a luminary. */
  method GetPtolemaicBoundRuler(sign: string, degree: real) returns (r: Result<Planet, string>)
    ensures r.Success? <==> ParseSign(sign).Some? && 0.0 <= degree < 30.0
    ensures r.Failure? ==> r.error == InvalidSignOrDegree
    ensures r.Success? ==>
      exists k :: 0 <= k < |BoundTable(ParseSign(sign).value)|
        && Holds(BoundTable(ParseSign(sign).value)[k], degree)
        && BoundTable(ParseSign(sign).value)[k].tag == r.value
    ensures r.Success? ==> r.value != Sun && r.value != Moon
    ensures r.Success? ==> Some(r.value) == BoundRuler(ParseSign(sign).value, degree)
  {
    var s := ParseSign(sign);
    if s.None? {
      return Failure(InvalidSignOrDegree);
    }
    var bands := BoundTable(s.value);
    BoundTableTiles(s.value);
    BoundTableRulers(s.value);
    TilesCover(bands, 30, degree);
    var k := FindBand(bands, degree);
    if k.Some? {
      var ruler := bands[k.value].tag;
      assert ruler in Rulers(bands);
      FiveRulersExcludeLuminaries(Rulers(bands), ruler);
      return Success(ruler);
    }
    return Failure(InvalidSignOrDegree);
  }

  // ------------------------------------------------------------ decans

  /** The Chaldean order of the planets, starting from the ruler of the first
      decan of Aries; the 36 decans of the zodiac run through it in turn. */
  const ChaldeanOrder: seq<Planet> := [Mars, Sun, Venus, Mercury, Moon, Saturn, Jupiter]

  /** The `decans` table: rows (ruler, start, end) become bands. */
  function DecanTable(s: Sign): seq<Band<Planet>> {
    match s
    case Aries => [Band(0, 10, Mars), Band(10, 20, Sun), Band(20, 30, Venus)]
    case Taurus => [Band(0, 10, Mercury), Band(10, 20, Moon), Band(20, 30, Saturn)]
    case Gemini => [Band(0, 10, Jupiter), Band(10, 20, Mars), Band(20, 30, Sun)]
    case Cancer => [Band(0, 10, Venus), Band(10, 20, Mercury), Band(20, 30, Moon)]
    case Leo => [Band(0, 10, Saturn), Band(10, 20, Jupiter), Band(20, 30, Mars)]
    case Virgo => [Band(0, 10, Sun), Band(10, 20, Venus), Band(20, 30, Mercury)]
    case Libra => [Band(0, 10, Moon), Band(10, 20, Saturn), Band(20, 30, Jupiter)]
    case Scorpio => [Band(0, 10, Mars), Band(10, 20, Sun), Band(20, 30, Venus)]
    case Sagittarius => [Band(0, 10, Mercury), Band(10, 20, Moon), Band(20, 30, Saturn)]
    case Capricorn => [Band(0, 10, Jupiter), Band(10, 20, Mars), Band(20, 30, Sun)]
    case Aquarius => [Band(0, 10, Venus), Band(10, 20, Mercury), Band(20, 30, Moon)]
    case Pisces => [Band(0, 10, Saturn), Band(10, 20, Jupiter), Band(20, 30, Mars)]
  }

  /** The decan ruler as a rule instead of a table: decan k (0, 1 or 2) of
      sign i is ruled by the planet at place 3i + k of the Chaldean cycle. */
  function DecanRuler(sign: string, degree: real): (r: Option<Planet>)
    ensures r.Some? <==> ParseSign(sign).Some? && 0.0 <= degree < 30.0
  {
    match ParseSign(sign)
    case None => None
    case Some(s) =>
      if 0.0 <= degree < 30.0 then
        Some(ChaldeanOrder[(3 * s.Index() + (degree / 10.0).Floor) % 7])
      else
        None
  }

  /** Every sign's decan table is three 10-degree bands tiling [0, 30),
      ruled in Chaldean order from place 3i of the cycle. */
  lemma DecanTableIsChaldean(s: Sign, k: int)
    requires 0 <= k < 3
    ensures |DecanTable(s)| == 3
    ensures Tiles(DecanTable(s), 30)
    ensures DecanTable(s)[k] == Band(10 * k, 10 * k + 10, ChaldeanOrder[(3 * s.Index() + k) % 7])
  {
    match s
    case Aries =>
    case Taurus =>
    case Gemini =>
    case Cancer =>
    case Leo =>
    case Virgo =>
    case Libra =>
    case Scorpio =>
    case Sagittarius =>
    case Capricorn =>
    case Aquarius =>
    case Pisces =>
  }

  /** The band search of `get_traditional_decan` over the table row found
      for the sign (no rows for an unknown sign). */
  method SearchDecans(bands: seq<Band<Planet>>, degree: real) returns (r: Option<Planet>)
    ensures r.Some? <==> exists j :: 0 <= j < |bands| && Holds(bands[j], degree)
    ensures r.Some? ==> exists j :: 0 <= j < |bands| && Holds(bands[j], degree) && bands[j].tag == r.value
  {
    var k := FindBand(bands, degree);
    if k.Some? {
      r := Some(bands[k.value].tag);
    } else {
      r := None;
    }
  }

  /** Lookup of a sign in a decan table read with `.get(sign, [])`. */
  function DecanRows(table: Sign -> seq<Band<Planet>>, sign: string): seq<Band<Planet>> {
    match ParseSign(sign)
    case None => []
    case Some(s) => table(s)
  }

  /** `get_traditional_decan` with the full table: the Chaldean rule, and
      None for an unknown sign or a degree outside [0, 30). */
  method GetTraditionalDecan(sign: string, degree: real) returns (r: Option<Planet>)
    ensures r == DecanRuler(sign, degree)
  {
    var bands := DecanRows(DecanTable, sign);
    r := SearchDecans(bands, degree);
    if ParseSign(sign).Some? {
      var s := ParseSign(sign).value;
      DecanTableIsChaldean(s, 0);
      TilesCover(bands, 30, degree);
      if r.Some? {
        var j :| 0 <= j < |bands| && Holds(bands[j], degree) && bands[j].tag == r.value;
        DecanTableIsChaldean(s, j);
        assert (degree / 10.0).Floor == j;
      }
    }
  }

  /** The decan table of the copy that stops after Leo: Aries to Leo as in the
      full table, an empty row for Virgo, and no row at all for Libra to Pisces,
      which `.get(sign, [])` also turns into an empty row. */
  function DecanTableUpToLeo(s: Sign): seq<Band<Planet>> {
    match s
    case Aries => [Band(0, 10, Mars), Band(10, 20, Sun), Band(20, 30, Venus)]
    case Taurus => [Band(0, 10, Mercury), Band(10, 20, Moon), Band(20, 30, Saturn)]
    case Gemini => [Band(0, 10, Jupiter), Band(10, 20, Mars), Band(20, 30, Sun)]
    case Cancer => [Band(0, 10, Venus), Band(10, 20, Mercury), Band(20, 30, Moon)]
    case Leo => [Band(0, 10, Saturn), Band(10, 20, Jupiter), Band(20, 30, Mars)]
    case Virgo => []
    case _ => []
  }

  /** `get_traditional_decan` with the table that stops after Leo: it agrees
      with the Chaldean rule for Aries to Leo and returns None for every other
      sign at every degree. */
  method GetTraditionalDecanUpToLeo(sign: string, degree: real) returns (r: Option<Planet>)
    ensures ParseSign(sign).Some? && ParseSign(sign).value.Index() <= 4 ==> r == DecanRuler(sign, degree)
    ensures !(ParseSign(sign).Some? && ParseSign(sign).value.Index() <= 4) ==> r == None
  {
    var bands := DecanRows(DecanTableUpToLeo, sign);
    r := SearchDecans(bands, degree);
    if ParseSign(sign).Some? && ParseSign(sign).value.Index() <= 4 {
      var s := ParseSign(sign).value;
      assert bands == DecanTable(s);
      DecanTableIsChaldean(s, 0);
      TilesCover(bands, 30, degree);
      if r.Some? {
        var j :| 0 <= j < |bands| && Holds(bands[j], degree) && bands[j].tag == r.value;
        DecanTableIsChaldean(s, j);
        assert (degree / 10.0).Floor == j;
      }
    }
  }

  /** The gap the short table leaves: 5 degrees of Virgo is Sun's decan by the
      full table and the Chaldean rule, but the short table gives the search
      no rows for Virgo or Pisces, so `GetTraditionalDecanUpToLeo` returns None. */
  lemma DecanTableStopsAfterLeo()
    ensures DecanRows(DecanTableUpToLeo, "Virgo") == [] && DecanRows(DecanTableUpToLeo, "Pisces") == []
    ensures DecanRows(DecanTable, "Virgo")[0] == Band(0, 10, Sun)
    ensures DecanRuler("Virgo", 5.0) == Some(Sun)
  {
    assert ParseSign("Virgo") == Some(Virgo);
    assert ParseSign("Pisces") == Some(Pisces);
    assert (5.0 / 10.0).Floor == 0;
  }
}
