/** The zodiac locator: which sign a longitude falls in (`get_zodiac_sign`)
    and how far into that sign it lies (`get_sign_degrees`). Both search the
    same twelve-row table of 30-degree bands. `get_zodiac_sign` first
    normalises every longitude modulo 360. `get_sign_degrees` normalises only
    longitudes of 360 or more, so a negative longitude finds no band and
    raises ValueError. */
module ZodiacLocator {
  import opened Wrappers
  import opened Angles
  import opened Zodiac
  import opened Bands

  /** The Python `zodiac_signs` list; its (name, start, end) rows become
      bands [start, end) tagged with the sign. */
  const ZodiacTable: seq<Band<Sign>> := [
    Band(0, 30, Aries),
    Band(30, 60, Taurus),
    Band(60, 90, Gemini),
    Band(90, 120, Cancer),
    Band(120, 150, Leo),
    Band(150, 180, Virgo),
    Band(180, 210, Libra),
    Band(210, 240, Scorpio),
    Band(240, 270, Sagittarius),
    Band(270, 300, Capricorn),
    Band(300, 330, Aquarius),
    Band(330, 360, Pisces)
  ]

  /** Row i of the table is sign i, starting at 30i. */
  lemma ZodiacTableRow(i: int)
    requires 0 <= i < 12
    ensures |ZodiacTable| == 12
    ensures ZodiacTable[i] == Band(SignAt(i).Start(), SignAt(i).Start() + 30, SignAt(i))
  {
  }

  /** The table tiles the circle [0, 360). */
  lemma ZodiacTableTiles()
    ensures Tiles(ZodiacTable, 360)
  {
  }

  /** The sign a longitude lies in: the one whose 30-degree range holds the
      longitude reduced modulo 360. */
  function SignOf(longitude: real): (s: Sign)
    ensures s.Start() as real <= Mod360(longitude) < s.Start() as real + 30.0
  {
    SignAt((Mod360(longitude) / 30.0).Floor)
  }

  /** The offset of a longitude within its sign. */
  function SignDegreeOf(longitude: real): (d: real)
    ensures 0.0 <= d < 30.0
    ensures SignOf(longitude).Start() as real + d == Mod360(longitude)
  {
    var x := Mod360(longitude);
    x - 30.0 * ((x / 30.0).Floor as real)
  }

  /** `get_zodiac_sign`: normalise, then take the first band holding the
      result. The loop's fall-through (Python's implicit `return None`) is
      unreachable, so every real longitude gets its sign. */
  method GetZodiacSign(longitude: real) returns (r: Option<Sign>)
    ensures r == Some(SignOf(longitude))
  {
    var x := Mod360(longitude);
    var k := FindBand(ZodiacTable, x);
    var s := SignOf(longitude);
    ZodiacTableRow(s.Index());
    SignAtIndex(s);
    assert Holds(ZodiacTable[s.Index()], x);
    if k.Some? {
      ZodiacTableTiles();
      TilesDisjoint(ZodiacTable, 360, x, k.value, s.Index());
      r := Some(ZodiacTable[k.value].tag);
    } else {
      assert false;
      r := None;
    }
  }

  /** `get_sign_degrees`: a longitude of 360 or more is normalised, a
      negative one is not and raises ValueError; otherwise the result is the
      offset from the start of the band found. */
  method GetSignDegrees(longitude: real) returns (r: Result<real, PyError>)
    ensures longitude < 0.0 ==> r == Failure(ValueError("Invalid ecliptic longitude"))
    ensures 0.0 <= longitude ==> r == Success(SignDegreeOf(longitude))
  {
    var x := longitude;
    if x >= 360.0 {
      x := Mod360(x);
    }
    var k := FindBand(ZodiacTable, x);
    ZodiacTableTiles();
    TilesCover(ZodiacTable, 360, x);
    if k.Some? {
      assert 0.0 <= longitude;
      if longitude < 360.0 {
        Mod360OfNormalised(longitude);
      }
      var s := SignOf(longitude);
      ZodiacTableRow(s.Index());
      SignAtIndex(s);
      TilesDisjoint(ZodiacTable, 360, x, k.value, s.Index());
      r := Success(x - ZodiacTable[k.value].lo as real);
    } else {
      r := Failure(ValueError("Invalid ecliptic longitude"));
    }
  }

  /** The sign of a longitude repeats every whole turn. */
  lemma SignOfPeriodic(longitude: real, k: int)
    ensures SignOf(longitude + 360.0 * k as real) == SignOf(longitude)
    ensures SignDegreeOf(longitude + 360.0 * k as real) == SignDegreeOf(longitude)
  {
    Mod360Periodic(longitude, k);
  }

  /** The documented example: 31.59 is 1.59 degrees into Taurus. An input of
      exactly 360 is 0 degrees into Aries; it is not rejected, whatever the
      docstring of `get_sign_degrees` says. */
  lemma SignExamples()
    ensures SignOf(31.59) == Taurus && SignDegreeOf(31.59) == 1.59
    ensures SignOf(360.0) == Aries && SignDegreeOf(360.0) == 0.0
  {
    Mod360OfNormalised(31.59);
    Mod360Unique(360.0, 0.0, -1);
  }
}
