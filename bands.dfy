/** Half-open degree bands and the one search every table lookup of the
    engine performs: walk the table in order and stop at the first band whose
    range `lo <= x < hi` holds the value. The zodiac table, the Ptolemaic
    bound tables and the decan tables are all lists of such bands. */
module Bands {
  import opened Wrappers

  /** A range [lo, hi) of degrees with what it stands for: a sign for the
      zodiac table, a ruling planet for the bound and decan tables. */
  datatype Band<T> = Band(lo: int, hi: int, tag: T)

  predicate Holds<T>(b: Band<T>, x: real) {
    b.lo as real <= x < b.hi as real
  }

  /** The bands are non-empty, follow one another without gap or overlap,
      and together cover [0, width). */
  predicate Tiles<T>(bands: seq<Band<T>>, width: int) {
    && |bands| > 0
    && bands[0].lo == 0
    && bands[|bands| - 1].hi == width
    && (forall i :: 0 <= i < |bands| ==> bands[i].lo < bands[i].hi)
    && (forall i :: 0 < i < |bands| ==> bands[i - 1].hi == bands[i].lo)
  }

  /** What the table lookup means: the tag of the first band holding `x`,
      or None when no band holds it. */
  function FirstTag<T(==)>(bands: seq<Band<T>>, x: real): (t: Option<T>)
    ensures t.None? <==> forall j :: 0 <= j < |bands| ==> !Holds(bands[j], x)
    ensures t.Some? ==>
      exists j :: 0 <= j < |bands| && Holds(bands[j], x) && bands[j].tag == t.value
        && forall i :: 0 <= i < j ==> !Holds(bands[i], x)
  {
    if |bands| == 0 then None
    else if Holds(bands[0], x) then Some(bands[0].tag)
    else
      var t := FirstTag(bands[1..], x);
      assert forall j :: 0 < j < |bands| ==> bands[j] == bands[1..][j - 1];
      if t.Some? then
        var j :| 0 <= j < |bands[1..]| && Holds(bands[1..][j], x) && bands[1..][j].tag == t.value
          && forall i :: 0 <= i < j ==> !Holds(bands[1..][i], x);
        assert forall i :: 0 <= i < j + 1 ==> !Holds(bands[i], x) by {
          forall i | 0 <= i < j + 1
            ensures !Holds(bands[i], x)
          {
            if i > 0 {
              assert bands[i] == bands[1..][i - 1];
            }
          }
        }
        assert Holds(bands[j + 1], x) && bands[j + 1].tag == t.value;
        t
      else
        t
  }

  /** The Python loop `for lo, hi, tag in table: if lo <= x < hi: return tag`,
      returning the position of the band found instead of its tag. */
  method FindBand<T(==)>(bands: seq<Band<T>>, x: real) returns (k: Option<nat>)
    ensures k.Some? ==> k.value < |bands| && Holds(bands[k.value], x)
    ensures k.Some? ==> forall j :: 0 <= j < k.value ==> !Holds(bands[j], x)
    ensures k.None? <==> forall j :: 0 <= j < |bands| ==> !Holds(bands[j], x)
    ensures k.Some? ==> FirstTag(bands, x) == Some(bands[k.value].tag)
    ensures k.None? ==> FirstTag(bands, x) == None
  {
    var i := 0;
    while i < |bands|
      invariant 0 <= i <= |bands|
      invariant forall j :: 0 <= j < i ==> !Holds(bands[j], x)
    {
      if bands[i].lo as real <= x < bands[i].hi as real {
        ghost var t := FirstTag(bands, x);
        ghost var j :| 0 <= j < |bands| && Holds(bands[j], x) && bands[j].tag == t.value
          && forall i :: 0 <= i < j ==> !Holds(bands[i], x);
        assert j == i;
        return Some(i);
      }
      i := i + 1;
    }
    return None;
  }

  /** In a tiling, an earlier band ends no later than a later one starts. */
  lemma {:induction false} TilesOrdered<T>(bands: seq<Band<T>>, width: int, i: int, j: int)
    requires Tiles(bands, width)
    requires 0 <= i < j < |bands|
    ensures bands[i].hi <= bands[j].lo
    decreases j - i
  {
    if i + 1 < j {
      TilesOrdered(bands, width, i + 1, j);
    }
  }

  /** In a tiling, no value lies in two bands. */
  lemma TilesDisjoint<T>(bands: seq<Band<T>>, width: int, x: real, i: int, j: int)
    requires Tiles(bands, width)
    requires 0 <= i < |bands| && 0 <= j < |bands|
    requires Holds(bands[i], x) && Holds(bands[j], x)
    ensures i == j
  {
    if i < j {
      TilesOrdered(bands, width, i, j);
    } else if j < i {
      TilesOrdered(bands, width, j, i);
    }
  }

  /** In a tiling, every value of [0, width) lies in some band at or after
      any band that starts at or below it. */
  lemma {:induction false} TilesCoverFrom<T>(bands: seq<Band<T>>, width: int, x: real, k: int)
    requires Tiles(bands, width)
    requires 0 <= k < |bands| && bands[k].lo as real <= x < width as real
    ensures exists i :: k <= i < |bands| && Holds(bands[i], x)
    decreases |bands| - k
  {
    if x >= bands[k].hi as real {
      TilesCoverFrom(bands, width, x, k + 1);
    } else {
      assert Holds(bands[k], x);
    }
  }

  /** In a tiling, a value lies in some band exactly when it lies in [0, width). */
  lemma TilesCover<T>(bands: seq<Band<T>>, width: int, x: real)
    requires Tiles(bands, width)
    ensures (exists i :: 0 <= i < |bands| && Holds(bands[i], x)) <==> 0.0 <= x < width as real
  {
    if 0.0 <= x < width as real {
      TilesCoverFrom(bands, width, x, 0);
    }
    if exists i :: 0 <= i < |bands| && Holds(bands[i], x) {
      var i :| 0 <= i < |bands| && Holds(bands[i], x);
      if 0 < i {
        TilesOrdered(bands, width, 0, i);
      }
      if i < |bands| - 1 {
        TilesOrdered(bands, width, i, |bands| - 1);
      }
    }
  }
}
