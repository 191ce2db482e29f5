/**
 * Map geofencing of `ServerContainer` (src/App.tsx:112-124): the server's
 * reference coordinate is sorted into one of the two known maps by strict
 * (open-interval) bounding-box tests, Syria first, then Georgia.
 */
module Geofence {
  import opened Wrappers

  /** The known map definitions (`Syria`, `Georgia` from ./dcs/maps). */
  datatype DcsMap = Syria | Georgia

  /** An open latitude/longitude box: a point on an edge is outside. */
  datatype Bounds = Bounds(latMin: real, latMax: real, lngMin: real, lngMax: real)

  predicate Contains(b: Bounds, lat: real, lng: real)
  {
    b.latMin < lat < b.latMax && b.lngMin < lng < b.lngMax
  }

  /** The box each known map is detected by. */
  function BoundsOf(m: DcsMap): Bounds
  {
    match m
    case Syria => Bounds(28.0, 32.0, 29.0, 33.0)
    case Georgia => Bounds(37.0, 41.0, 34.0, 38.0)
  }

  /** The order in which the source tries the maps. */
  const Registry: seq<DcsMap> := [Syria, Georgia]

  /**
   * Reference definition: scan `maps` in order and return the first one
   * whose box strictly contains the point, or None when none does.
   */
  function FirstContaining(maps: seq<DcsMap>, lat: real, lng: real): (r: Option<DcsMap>)
    ensures r.Some? ==> r.value in maps && Contains(BoundsOf(r.value), lat, lng)
    ensures r.None? <==> forall m :: m in maps ==> !Contains(BoundsOf(m), lat, lng)
  {
    if maps == [] then None
    else if Contains(BoundsOf(maps[0]), lat, lng) then Some(maps[0])
    else FirstContaining(maps[1..], lat, lng)
  }

  /**
   * The source's if/else chain, written out with its literal constants.
   * None stands for the "Failed to detect map." branch.
   */
  function DetectMap(lat: real, lng: real): (r: Option<DcsMap>)
    ensures r == FirstContaining(Registry, lat, lng)
  {
    if (lat > 28.0 && lat < 32.0) && (lng > 29.0 && lng < 33.0) then Some(Syria)
    else if (lat > 37.0 && lat < 41.0) && (lng > 34.0 && lng < 38.0) then Some(Georgia)
    else None
  }

  /**
   * First match in order: FirstContaining returns m exactly when m sits at
   * some position i, contains the point, and no earlier entry does.
   */
  lemma {:induction false} FirstContainingIsFirstMatch(maps: seq<DcsMap>, lat: real, lng: real, m: DcsMap)
    ensures FirstContaining(maps, lat, lng) == Some(m) <==>
      exists i :: 0 <= i < |maps| && maps[i] == m && Contains(BoundsOf(m), lat, lng) &&
        forall j :: 0 <= j < i ==> !Contains(BoundsOf(maps[j]), lat, lng)
  {
    if maps == [] {
    } else if Contains(BoundsOf(maps[0]), lat, lng) {
      if FirstContaining(maps, lat, lng) == Some(m) {
        assert maps[0] == m;
      } else {
        assert maps[0] != m;
        forall i | 0 < i < |maps| && maps[i] == m && Contains(BoundsOf(m), lat, lng)
          ensures exists j :: 0 <= j < i && Contains(BoundsOf(maps[j]), lat, lng)
        {
          assert Contains(BoundsOf(maps[0]), lat, lng);
        }
      }
    } else {
      var tail := maps[1..];
      FirstContainingIsFirstMatch(tail, lat, lng, m);
      if FirstContaining(maps, lat, lng) == Some(m) {
        var k :| 0 <= k < |tail| && tail[k] == m && Contains(BoundsOf(m), lat, lng) &&
          forall j :: 0 <= j < k ==> !Contains(BoundsOf(tail[j]), lat, lng);
        assert maps[k + 1] == m;
        forall j | 0 <= j < k + 1 ensures !Contains(BoundsOf(maps[j]), lat, lng) {
          if j > 0 { assert maps[j] == tail[j - 1]; }
        }
      } else {
        forall i | 0 <= i < |maps| && maps[i] == m && Contains(BoundsOf(m), lat, lng)
          ensures exists j :: 0 <= j < i && Contains(BoundsOf(maps[j]), lat, lng)
        {
          assert i > 0;
          assert tail[i - 1] == m;
          var j :| 0 <= j < i - 1 && Contains(BoundsOf(tail[j]), lat, lng);
          assert maps[j + 1] == tail[j];
        }
      }
    }
  }

  /** No point lies in both known boxes, so the Syria-first order never decides anything. */
  lemma BoxesDisjoint(lat: real, lng: real)
    ensures !(Contains(BoundsOf(Syria), lat, lng) && Contains(BoundsOf(Georgia), lat, lng))
  {
  }

  /** Every point with 28 < lat < 32 and 29 < lng < 33 is Syria. */
  lemma SyriaBoxResolves(lat: real, lng: real)
    requires 28.0 < lat < 32.0 && 29.0 < lng < 33.0
    ensures DetectMap(lat, lng) == Some(Syria)
  {
  }

  /** Every point with 37 < lat < 41 and 34 < lng < 38 is Georgia. */
  lemma GeorgiaBoxResolves(lat: real, lng: real)
    requires 37.0 < lat < 41.0 && 34.0 < lng < 38.0
    ensures DetectMap(lat, lng) == Some(Georgia)
  {
  }

  /**
   * The chain's answer is exactly "the map whose box contains the point",
   * in both directions, and failure exactly when no box does.
   */
  lemma DetectMapCharacterized(lat: real, lng: real, m: DcsMap)
    ensures DetectMap(lat, lng) == Some(m) <==> Contains(BoundsOf(m), lat, lng)
    ensures DetectMap(lat, lng) == None <==>
      !Contains(BoundsOf(Syria), lat, lng) && !Contains(BoundsOf(Georgia), lat, lng)
  {
    FirstContainingIsFirstMatch(Registry, lat, lng, m);
    BoxesDisjoint(lat, lng);
    if Contains(BoundsOf(m), lat, lng) {
      assert Registry[if m == Syria then 0 else 1] == m;
    }
  }

  /** Since the boxes are disjoint, scanning in the reverse order gives the same answer. */
  lemma OrderIrrelevant(lat: real, lng: real)
    ensures DetectMap(lat, lng) == FirstContaining([Georgia, Syria], lat, lng)
  {
    BoxesDisjoint(lat, lng);
  }

  /**
   * Bounds are exclusive: a point on any edge line of a box is not in that
   * box, and, when it is not inside the other box either, detection fails.
   */
  lemma EdgeIsOutside(m: DcsMap, lat: real, lng: real)
    requires var b := BoundsOf(m); lat == b.latMin || lat == b.latMax || lng == b.lngMin || lng == b.lngMax
    requires forall other :: other != m ==> !Contains(BoundsOf(other), lat, lng)
    ensures !Contains(BoundsOf(m), lat, lng)
    ensures DetectMap(lat, lng) == None
  {
    DetectMapCharacterized(lat, lng, Syria);
  }
}
