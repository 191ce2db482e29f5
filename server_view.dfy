/**
 * The rendering decision of `ServerContainer` (src/App.tsx:69-126): the
 * reference pair read from entity 0, and the one view chosen from the
 * fetch status, the error and loading flags and that pair.
 */
module ServerView {
  import opened Wrappers
  import opened Geofence
  import opened ServerStore

  /** The well-known entity that carries the server's reference coordinate. */
  const GlobalEntityId: int := 0

  /** The pair `[refLat, refLng]`; None stands for `undefined`. */
  datatype Reference = Reference(lat: Option<real>, lng: Option<real>)

  /** The five things `ServerContainer` can render. */
  datatype View =
    | Redirect                          // <Redirect to="/" />
    | ShowError                         // the "Error: ..." box
    | Loading                           // the spinner
    | MapFailure(lat: real, lng: real)  // "Failed to detect map.", with the logged coordinate
    | ShowMap(dcsMap: DcsMap)           // <Map dcsMap={...} />

  function Property(props: map<string, real>, key: string): Option<real>
  {
    if key in props then Some(props[key]) else None
  }

  /** The selector over the store's entities (src/App.tsx:70-77). */
  function ReferenceOf(entities: map<int, Entity>): (r: Reference)
    ensures GlobalEntityId !in entities ==> r == Reference(None, None)
    ensures forall x :: r.lat == Some(x) <==>
      GlobalEntityId in entities && "ReferenceLatitude" in entities[GlobalEntityId].properties &&
      entities[GlobalEntityId].properties["ReferenceLatitude"] == x
    ensures forall x :: r.lng == Some(x) <==>
      GlobalEntityId in entities && "ReferenceLongitude" in entities[GlobalEntityId].properties &&
      entities[GlobalEntityId].properties["ReferenceLongitude"] == x
  {
    if GlobalEntityId !in entities then Reference(None, None)
    else
      var globalObj := entities[GlobalEntityId];
      Reference(Property(globalObj.properties, "ReferenceLatitude"),
                Property(globalObj.properties, "ReferenceLongitude"))
  }

  /** JavaScript truthiness of a `number | undefined`: undefined and 0 are falsy. */
  predicate Truthy(v: Option<real>)
  {
    v.Some? && v.value != 0.0
  }

  /**
   * The decision table of src/App.tsx:92-126, in its fixed priority order:
   * a 404 redirects, then an error shows, then loading or a falsy
   * reference value shows the spinner, and only then is the point geofenced.
   */
  function Decide(status: int, error: bool, loading: bool, ref: Reference): (v: View)
    ensures v == Redirect <==> status == 404
    ensures v == ShowError <==> status != 404 && error
    ensures v == Loading <==>
      status != 404 && !error && (loading || !Truthy(ref.lat) || !Truthy(ref.lng))
    ensures v.ShowMap? ==>
      status != 404 && !error && !loading && ref.lat.Some? && ref.lng.Some? &&
      Contains(BoundsOf(v.dcsMap), ref.lat.value, ref.lng.value)
    ensures v.MapFailure? ==>
      status != 404 && !error && !loading && ref == Reference(Some(v.lat), Some(v.lng)) &&
      v.lat != 0.0 && v.lng != 0.0 &&
      forall m :: m in Registry ==> !Contains(BoundsOf(m), v.lat, v.lng)
  {
    if status == 404 then Redirect
    else if error then ShowError
    else if loading || !Truthy(ref.lat) || !Truthy(ref.lng) then Loading
    else
      var refLat, refLng := ref.lat.value, ref.lng.value;
      match DetectMap(refLat, refLng)
      case Some(m) => ShowMap(m)
      case None => MapFailure(refLat, refLng)
  }

  /** `ServerContainer` as a whole: extraction from the store's entities, then the decision. */
  function ServerContainer(status: int, error: bool, loading: bool, entities: map<int, Entity>): (v: View)
    ensures GlobalEntityId !in entities ==> v in {Redirect, ShowError, Loading}
  {
    Decide(status, error, loading, ReferenceOf(entities))
  }

  /** A 404 redirects whatever the error, loading flag and reference are. */
  lemma NotFoundRedirects(error: bool, loading: bool, ref: Reference)
    ensures Decide(404, error, loading, ref) == Redirect
  {
  }

  /**
   * When the fetch has settled without error and both reference values are
   * present and non-zero, the view is exactly the geofence outcome: the map
   * whose box holds the point, or the failure carrying that point.
   */
  lemma ReadyViewIsGeofence(status: int, lat: real, lng: real, m: DcsMap)
    requires status != 404 && lat != 0.0 && lng != 0.0
    ensures Decide(status, false, false, Reference(Some(lat), Some(lng))) == ShowMap(m) <==>
      Contains(BoundsOf(m), lat, lng)
    ensures Decide(status, false, false, Reference(Some(lat), Some(lng))) == MapFailure(lat, lng) <==>
      !Contains(BoundsOf(Syria), lat, lng) && !Contains(BoundsOf(Georgia), lat, lng)
  {
    DetectMapCharacterized(lat, lng, m);
  }

  /**
   * Awaiting the reference is never a map failure: while entity 0 is absent,
   * or a reference value is undefined or 0, any poll without a 404 or an
   * error renders the spinner.
   */
  lemma MissingReferenceLoads(status: int, loading: bool, entities: map<int, Entity>)
    requires status != 404
    requires var r := ReferenceOf(entities); !Truthy(r.lat) || !Truthy(r.lng)
    ensures ServerContainer(status, false, loading, entities) == Loading
  {
  }

  /**
   * A scenario: entity 0 at (30, 31) selects Syria; a later
   * poll moving it to (39, 36) selects Georgia, with no other change.
   */
  lemma ReferenceScenario()
    ensures ServerContainer(200, false, false,
      map[0 := Entity(0, map["ReferenceLatitude" := 30.0, "ReferenceLongitude" := 31.0])]) == ShowMap(Syria)
    ensures ServerContainer(200, false, false,
      map[0 := Entity(0, map["ReferenceLatitude" := 39.0, "ReferenceLongitude" := 36.0])]) == ShowMap(Georgia)
    ensures ServerContainer(200, false, false,
      map[0 := Entity(0, map["ReferenceLatitude" := 0.0, "ReferenceLongitude" := 0.0])]) == Loading
    ensures ServerContainer(200, false, false,
      map[0 := Entity(0, map["ReferenceLatitude" := 28.0, "ReferenceLongitude" := 31.0])]) == MapFailure(28.0, 31.0)
  {
    var e := map[0 := Entity(0, map["ReferenceLatitude" := 30.0, "ReferenceLongitude" := 31.0])];
    assert ReferenceOf(e) == Reference(Some(30.0), Some(31.0));
    var g := map[0 := Entity(0, map["ReferenceLatitude" := 39.0, "ReferenceLongitude" := 36.0])];
    assert ReferenceOf(g) == Reference(Some(39.0), Some(36.0));
    var z := map[0 := Entity(0, map["ReferenceLatitude" := 0.0, "ReferenceLongitude" := 0.0])];
    assert ReferenceOf(z) == Reference(Some(0.0), Some(0.0));
    var f := map[0 := Entity(0, map["ReferenceLatitude" := 28.0, "ReferenceLongitude" := 31.0])];
    assert ReferenceOf(f) == Reference(Some(28.0), Some(31.0));
  }
}
