# A verified model of a traditional-astrology classification engine

The repository computes horoscope positions with the Swiss Ephemeris and then
classifies them using the rules of traditional (horary) astrology. This
project models that classification core, in exact real arithmetic:

- **The zodiac locator.** `get_zodiac_sign` reduces a longitude modulo 360 and
  names its 30-degree sign. `get_sign_degrees` gives the offset into the sign;
  it normalises only longitudes of 360 or more, so a negative longitude raises
  `ValueError`.
- **The day/night test.** `is_day_chart` checks whether the Sun lies on the
  half-circle from the Ascendant to the Descendant.
- **Essential dignities and debilities.** These are lookups in constant
  tables: domicile, exaltation, super-exaltation, triplicity, detriment and
  fall. An unknown planet is `False`. An unknown sign is `KeyError` for
  triplicity.
- **The Ptolemaic bounds.** Five unequal bands per sign. An unknown sign or an
  out-of-range degree gives the string `"Invalid sign or degree"`.
- **The Chaldean decans.** Three 10-degree bands per sign. An unknown sign or
  an out-of-range degree gives `None`.
- **Combustion and cazimi.** These compare a planet's distance from the Sun.
- **Small conversions.** Decimal degrees to degrees, minutes and seconds; the
  12-hour to 24-hour step; the opposite point `(x + 180) % 360`, used for the
  Descendant, the Imum Coeli and the South Node; and the house-system name to
  its one-letter Swiss Ephemeris code.

Every table lookup of the form `for lo, hi, x in table: if lo <= v < hi:
return x` is one method, `Bands.FindBand`, a loop proved against its
specification: it finds the first band holding the value, whose tag is
`Bands.FirstTag`. The sign lookup and the full decan lookup are proved equal
to closed-form rules: the sign at index floor(Mod360(L) / 30), and the decan
ruler at place (3·sign + band) mod 7 of the Chaldean order. The short decan
table agrees with that rule from Aries to Leo only. The bound lookup returns
the ruler of the band of its own table that holds the degree,
`BoundsAndDecans.BoundRuler`.

The Python functions take planet and sign names as strings.
`Zodiac.ParsePlanet` and `Zodiac.ParseSign` stand for the dictionary lookups,
which miss on an unknown name. Python `x % 360` on floats is floor-mod; it is
`Angles.Mod360`. Python `int()` truncates toward zero; it is
`Angles.TruncateToInt`.

Modules: `Wrappers` (Option, Result and the Python exceptions raised),
`Angles`, `Zodiac` (signs, planets and their names), `Bands`, `ZodiacLocator`,
`ChartConditions`, `Dignities`, `BoundsAndDecans`, `HouseSystems` and
`Conversions`.

### Copies of the same functions

The repository holds several near-verbatim copies of these functions. Each
copy is modelled by the one member cited in the table below:

- `get_zodiac_sign` and `get_sign_degrees`:
  - src/dependencies/astro_utils.py:2-86
  - src/utilities/astro_utils.py:3-87
  - src/dependencies/astro_helpers.py:2-86
  - src/Dependencies/utilities.py:145-229
- `is_day_chart`: src/dependencies/astro_utils.py:89-110 and src/utilities/astro_utils.py:90-108.
- The dignity predicates: src/dependencies/astro_utils.py:113-238 and 392-444, and
  src/utilities/dignity_utils.py:5-183.
- `get_ptolemaic_bound_ruler`: src/dependencies/astro_utils.py:241-352 and src/utilities/astro_utils.py:111-221.
- `get_traditional_decan`: src/dependencies/astro_utils.py:355-389 and src/utilities/astro_utils.py:224-255.
  The copy at src/dependencies/astro_helpers.py:89-104 has a shorter table and is
  modelled separately.
- `get_house_system_code`:
  - src/dependencies/astro_utils.py:447-475
  - src/utilities/astro_utils.py:258-286
  - src/dependencies/astro_helpers.py:107-135
  - src/Dependencies/utilities.py:232-260
- `convert_to_dms`:
  - src/dependencies/astro_calculations.py:101-117
  - src/utilities/astro_calculations.py:95-111
  - src/test_files/test_functions.py:1-7
- The AM/PM step: src/dependencies/astro_calculations.py:68-71 and src/Dependencies/utilities.py:70-73.
- The opposite point:
  - src/Dependencies/utilities.py:331 and 357
  - src/dependencies/astro_calculations.py:235 and 261
  - src/utilities/astro_calculations.py:151, 228 and 254

## Model

| member | source | states |
|---|---|---|
| Angles.Mod360 | src/dependencies/astro_utils.py:28 | Python's `% 360` on a longitude: the result lies in [0, 360) and differs from the input by a whole number of turns |
| Angles.Mod360Periodic | src/dependencies/astro_utils.py:28 | adding any whole number of turns leaves the normalised longitude unchanged |
| Angles.TruncateToInt | src/dependencies/astro_utils.py:199 | Python's `int()`: for x >= 0 the result is the largest integer at most x; for x < 0 it lies in [x, x + 1) and is at most 0, that is, it is truncated toward zero |
| Angles.OppositePoint | src/Dependencies/utilities.py:331 | `(x + 180) % 360` lies in [0, 360) and is exactly half a turn from x modulo 360 |
| Angles.OppositePointInvolution | src/Dependencies/utilities.py:357 | taking the opposite point twice gives back x reduced modulo 360 |
| Bands.FirstTag | src/dependencies/astro_utils.py:31-33 | the tag a table lookup returns: None exactly when no band holds x, otherwise the tag of a band holding x with no earlier band holding it |
| Bands.FindBand | src/dependencies/astro_utils.py:31-33 | the table search finds the first band with lo <= x < hi, and finds nothing exactly when no band holds x; the tag at the position found is `FirstTag` |
| Bands.TilesDisjoint | src/dependencies/astro_utils.py:12-25 | in a contiguous table of half-open bands no value lies in two bands, so "the first band found" is "the band" |
| Bands.TilesCover | src/dependencies/astro_utils.py:12-25 | a contiguous table of bands from 0 to w holds a value exactly when the value lies in [0, w) |
| ZodiacLocator.ZodiacTableTiles | src/dependencies/astro_utils.py:12-25 | the twelve sign rows cover [0, 360) without gap or overlap |
| ZodiacLocator.ZodiacTableRow | src/dependencies/astro_utils.py:12-25 | row i of the sign table is sign i with range [30i, 30i + 30) |
| ZodiacLocator.SignOf | src/dependencies/astro_utils.py:27-33 | the sign of a longitude is the one whose 30-degree range holds the longitude reduced modulo 360 |
| ZodiacLocator.SignDegreeOf | src/dependencies/astro_utils.py:77-83 | the offset lies in [0, 30), and the sign's start plus the offset is the longitude reduced modulo 360 |
| ZodiacLocator.GetZodiacSign | src/dependencies/astro_utils.py:2-33 | for every real longitude the loop finds the sign of the normalised longitude; the fall-through `None` never happens |
| ZodiacLocator.GetSignDegrees | src/dependencies/astro_utils.py:36-86 | a negative longitude raises ValueError("Invalid ecliptic longitude"); any other longitude, 360 included, gives its offset within its sign |
| ZodiacLocator.SignOfPeriodic | src/dependencies/astro_utils.py:27-28 | sign and offset repeat with period 360 |
| ZodiacLocator.SignExamples | src/dependencies/astro_utils.py:54-58 | 31.59 is 1.59 degrees into Taurus (`SignOf`, `SignDegreeOf`); 360 is 0 degrees into Aries; that 360 does not raise follows from the `ensures` of `GetSignDegrees`, which fails only for a negative longitude |
| ChartConditions.IsDayChart | src/dependencies/astro_utils.py:89-110 | `is_day_chart` with its wrap-around split; for longitudes in [0, 360), a day chart is exactly one where the Sun is less than 180 degrees ahead of the Ascendant |
| ChartConditions.DayChartOnTheHorizon | src/dependencies/astro_utils.py:104-110 | the Sun on the Ascendant gives a day chart; the Sun on the Descendant gives a night chart |
| ChartConditions.DayChartFlipsAcrossHorizon | src/utilities/astro_utils.py:102-108 | putting the Ascendant at its opposite point turns every day chart into a night chart and back |
| ChartConditions.IsCombust | src/utilities/dignity_utils.py:186-212 | `is_planet_combust`: true only for equal sign names; for normalised longitudes, true exactly when the names are equal and the shorter arc to the Sun is under 8.5 degrees (strict); symmetry and the sign condition are in `CombustAndCazimiSymmetric`, the no-wrap case in `SameSignNeverWraps` |
| ChartConditions.IsCazimi | src/utilities/dignity_utils.py:215-239 | `is_planet_cazimi`: true exactly when the sign names are equal and the planet lies within 0.2916667 degrees of the Sun on either side, bounds included, with no wrap-around; `CazimiImpliesCombust` relates it to combustion |
| ChartConditions.CombustDistance | src/utilities/dignity_utils.py:205-209 | for normalised longitudes the compared distance lies in [0, 180] and is the shorter of the two arcs between planet and Sun |
| ChartConditions.CombustAndCazimiSymmetric | src/utilities/dignity_utils.py:201-202 | combustion and cazimi are false whenever the two sign names differ, and both are symmetric in planet and Sun |
| ChartConditions.CazimiImpliesCombust | src/utilities/dignity_utils.py:234-239 | every cazimi planet is also combust |
| ChartConditions.SameSignNeverWraps | src/utilities/dignity_utils.py:205-212 | when the names are the signs of the normalised longitudes, the bodies are under 30 degrees apart and the `360 - d` branch is never taken, so combustion is a plain distance under 8.5 |
| ChartConditions.CombustAndCazimiExamples | src/utilities/dignity_utils.py:212 | 5 degrees apart is combust, 8.5 and 9 degrees apart are not; 0.2 degrees apart is cazimi, 0.3 is not; different signs are never combust |
| Dignities.IsInDomicile | src/dependencies/astro_utils.py:113-141 | `is_planet_in_its_traditional_domicile`: true only for a known planet and a known sign; its meaning, each sign having exactly one ruler, is `DomicileHasOneRuler` |
| Dignities.IsExalted | src/dependencies/astro_utils.py:144-166 | `is_planet_in_its_traditional_exaltation`: true only for a known planet and a known sign; one sign per planet is `ExaltationIsOneSign` |
| Dignities.IsSuperExalted | src/dependencies/astro_utils.py:169-202 | `is_planet_super_exalted`: true only for a known planet and a known sign; the truncated degree is `SuperExaltedOnItsWholeDegree`, the link to exaltation `SuperExaltedIsExalted` |
| Dignities.IsInDetriment | src/dependencies/astro_utils.py:392-418 | `is_planet_in_its_traditional_detriment`: true only for a known planet and a known sign; detriment as domicile in the opposite sign is `DetrimentIsOppositeDomicile` |
| Dignities.IsInFall | src/dependencies/astro_utils.py:421-444 | `is_planet_in_its_traditional_fall`: true only for a known planet and a known sign; fall as exaltation in the opposite sign is `FallIsOppositeExaltation` |
| Dignities.IsInTriplicity | src/dependencies/astro_utils.py:220-238 | a sign missing from the table, and only such a sign, raises KeyError carrying that sign; a match is always a known planet |
| Dignities.DomicileHasOneRuler | src/utilities/dignity_utils.py:17-33 | each sign is the domicile of exactly one of the seven planets, the traditional ruler |
| Dignities.UnknownPlanetHasNoDignity | src/dependencies/astro_utils.py:135-141 | a body that is not one of the seven planets is never in domicile, exaltation, super-exaltation, detriment or fall, and never a triplicity ruler |
| Dignities.DetrimentRowIsOppositeDomicileRow | src/dependencies/astro_utils.py:404-412 | each row of the detriment table lists exactly the signs opposite that planet's domicile row |
| Dignities.DetrimentIsOppositeDomicile | src/utilities/dignity_utils.py:143-157 | a planet is in detriment in a sign exactly when it is in domicile in the opposite sign |
| Dignities.DomicileExcludesDetriment | src/dependencies/astro_utils.py:404-418 | no planet is ever in domicile and detriment at once |
| Dignities.ExaltationIsOneSign | src/utilities/dignity_utils.py:47-58 | each planet is exalted in exactly one sign |
| Dignities.FallRowIsOppositeExaltationRow | src/dependencies/astro_utils.py:433-441 | each planet's fall sign is the sign opposite its exaltation sign |
| Dignities.FallIsOppositeExaltation | src/utilities/dignity_utils.py:172-183 | a planet is in fall in a sign exactly when it is exalted in the opposite sign |
| Dignities.ExaltationExcludesFall | src/dependencies/astro_utils.py:155-166 | no planet is ever exalted and in fall at once |
| Dignities.SuperExaltedIsExalted | src/utilities/dignity_utils.py:76-94 | super-exaltation implies exaltation |
| Dignities.SuperExaltedOnItsWholeDegree | src/dependencies/astro_utils.py:184-202 | in its exaltation sign a planet is super-exalted exactly on the whole degree [d, d + 1) starting at its table degree d, because the degree is truncated |
| Dignities.SuperExaltationExamples | src/dependencies/astro_utils.py:196-200 | the Sun in Aries is super-exalted at 19.0 and 19.99 degrees and not at 18.99 |
| Dignities.TriplicityFollowsElement | src/utilities/dignity_utils.py:110-128 | the triplicity pair depends only on the sign's element; a day chart picks the first ruler and a night chart the second, so exactly one planet qualifies; water signs give Mars either way |
| BoundsAndDecans.BoundTableTiles | src/dependencies/astro_utils.py:257-342 | each sign's five bounds cover [0, 30) without gap or overlap |
| BoundsAndDecans.BoundTableRulers | src/utilities/astro_utils.py:126-211 | each sign's five bounds are ruled by Saturn, Jupiter, Mars, Venus and Mercury, once each |
| BoundsAndDecans.BoundRuler | src/dependencies/astro_utils.py:345-349 | the ruler of the bound holding a degree exists exactly for degrees in [0, 30) and is never the Sun or the Moon |
| BoundsAndDecans.BoundRulerExamples | src/dependencies/astro_utils.py:257-342 | 10 and 6 degrees of Aries are Venus's bound, 5.99 is Jupiter's, 29.5 degrees of Pisces is Saturn's, and 30 degrees is in no bound |
| BoundsAndDecans.GetPtolemaicBoundRuler | src/dependencies/astro_utils.py:241-352 | it succeeds exactly for a known sign and a degree in [0, 30), with `BoundRuler` of the sign and degree, the ruler of the bound holding the degree, never a luminary; otherwise it returns "Invalid sign or degree" |
| BoundsAndDecans.DecanTableIsChaldean | src/dependencies/astro_utils.py:371-384 | decan k of sign i spans [10k, 10k + 10) and is ruled by place (3i + k) mod 7 of the Chaldean order Mars, Sun, Venus, Mercury, Moon, Saturn, Jupiter |
| BoundsAndDecans.DecanRuler | src/utilities/astro_utils.py:237-255 | the rule-based decan ruler exists exactly for a known sign and a degree in [0, 30) |
| BoundsAndDecans.GetTraditionalDecan | src/dependencies/astro_utils.py:355-389 | the table search returns the Chaldean-rule ruler, and None for an unknown sign or a degree outside [0, 30) |
| BoundsAndDecans.GetTraditionalDecanUpToLeo | src/dependencies/astro_helpers.py:89-104 | the short table agrees with the Chaldean rule from Aries to Leo and returns None for every later sign at every degree |
| BoundsAndDecans.DecanTableStopsAfterLeo | src/dependencies/astro_helpers.py:97-101 | the short table gives no rows for Virgo or Pisces, although 5 degrees of Virgo is Sun's decan by the full table and the rule |
| HouseSystems.GetHouseSystemCode | src/utilities/astro_utils.py:270-286 | a one-letter code exactly for the eight listed names; any other name raises ValueError("Unsupported house system: " + name) |
| HouseSystems.HouseSystemCodeRoundTrip | src/dependencies/astro_helpers.py:119-135 | the lookup and the reverse table of codes are inverses, in both directions |
| HouseSystems.HouseSystemCodeInjective | src/Dependencies/utilities.py:244-260 | no two house systems share a code |
| Conversions.ConvertToDms | src/dependencies/astro_calculations.py:112-117 | for x >= 0 the degrees are floor(x) and minutes and seconds lie in [0, 60); for x < 0 the degrees are -floor(-x), truncated toward zero, and minutes and seconds lie in (-60, 0] |
| Conversions.ConvertToDmsRoundTrip | src/utilities/astro_calculations.py:106-111 | degrees + minutes/60 + seconds/3600 gives back the input exactly |
| Conversions.ConvertToDmsCanonical | src/dependencies/astro_calculations.py:112-115 | for x >= 0 the result is the only triple with whole degrees and minutes and with minutes and seconds in [0, 60) that reads back as x |
| Conversions.ConvertToDmsExample | src/test_files/test_functions.py:11-12 | 262.81 is 262 degrees, 48 minutes and 36 seconds |
| Conversions.To24Hour | src/dependencies/astro_calculations.py:68-71 | any marker other than AM and PM leaves the hour unchanged |
| Conversions.To24HourRoundTrip | src/Dependencies/utilities.py:70-73 | every hour 1..12 with AM or PM lands in 0..23, and the 12-hour reading of the result is the input |
| Conversions.To12HourRoundTrip | src/dependencies/astro_calculations.py:68-71 | every hour 0..23 is reached from its own 12-hour reading, so the step is a bijection |
| Conversions.To24HourExamples | src/Dependencies/utilities.py:70-73 | 12 AM is 0, 12 PM is 12, 1 PM is 13, 11 AM is 11 |

## Left out

- Geocoding (`get_coordinates`): a network call to Nominatim.
- Julian Day and timezones (`calculate_current_julian_day` and
  `calculate_custom_julian_day`): these depend on the wall clock,
  TimezoneFinder, pytz and `swis_eph.julday`. Only their pure AM/PM step is
  modelled, as `Conversions.To24Hour`.
- The Swiss Ephemeris wrappers: `calculate_ecliptic_longitude`,
  `calculate_ascendant`, `calculate_midheaven`, `calculate_house_cusps`, and
  the `swis_eph.houses` calls in `calculate_descendant`/`calculate_ic`.
  - These are foreign calls, and `set_topo` changes library-global state.
  - Only the `(x + 180) % 360` step is modelled, as `Angles.OppositePoint`.
- `is_planet_in_retrograde`: it compares two Swiss Ephemeris positions, which are foreign calls.
- The South Node branch at src/dependencies/astro_calculations.py:156-158.
  - It unpacks `calc_ut`'s result so that the position tuple, not the longitude, gets 180 added: a TypeError at run time.
  - The working copy at src/utilities/astro_calculations.py:149-151 is what `Angles.OppositePoint` models.
- The command-line interface, the chart plotting and the Skyfield test script: I/O only.
- IEEE-754 floating point: longitudes are exact reals.
  - Rounding artefacts are not reproduced, such as a tiny negative longitude whose `% 360` rounds to 360.0 and so finds no sign, or 31.59 - 30 not being exactly 1.59.
  - NaN inputs are out of scope.
- The docstring of `get_sign_degrees` says 360 raises, and the docstring of
  `convert_to_dms` says the seconds are integers. The code does neither, and
  the model follows the code.
- Python's duck typing: names are modelled as strings and degrees as reals.
  - The docstrings of `get_ptolemaic_bound_ruler` (src/dependencies/astro_utils.py:247)
    and `get_traditional_decan` (src/dependencies/astro_utils.py:361) give the
    degree as `int`. The model takes a real, which is wider; the Python
    comparisons accept floats too.
  - Sign names and day/night flags are not checked for type.
  - `To24Hour` takes the hour as an integer.
- Bands.FindBand: the Python loops return a value from the band they find,
  while FindBand returns its position. Each caller reads the band at that
  position: its tag, or, for `get_sign_degrees`, its lower bound, which is
  subtracted from the longitude.

## Findings

| source | as written | input that shows it | evidently intended | confidence | as-written member | corrected member |
|---|---|---|---|---|---|---|
| src/dependencies/astro_helpers.py:91-99 | the decan table stops after Leo: Virgo has an empty row and Libra to Pisces have none, so `get_traditional_decan` returns `None` for them | `get_traditional_decan("Virgo", 5)` gives `None` | Sun, the ruler of the first decan of Virgo, as in the complete table of src/dependencies/astro_utils.py:371-384 and the Chaldean rule | high; not executed | BoundsAndDecans.GetTraditionalDecanUpToLeo | BoundsAndDecans.GetTraditionalDecan |

`BoundsAndDecans.DecanTableStopsAfterLeo` exhibits the input. The short
table's row for Virgo is empty, so `GetTraditionalDecanUpToLeo` returns None
there. The Chaldean rule `DecanRuler("Virgo", 5.0)` is `Some(Sun)`, and
`GetTraditionalDecan` is proved equal to that rule.
