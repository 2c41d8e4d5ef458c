/** The place service: the formatted list of all place names, the cached place search with
    its OpenStreetMap fallback, and the argument check of the closest-place lookup. The
    repository, the OpenStreetMap request and the name normaliser are function parameters. */
module PlaceService {
  import opened Model
  import opened Strings
  import opened Geo
  import opened Cache

  const NAME_SEPARATOR: string := ",\n"
  const NAME_REQUIRED: string := "Le paramètre name est requis"
  const INVALID_COORDINATES: string := "Coordonnées invalides"

  /** A value, or the message of the IllegalArgumentException signalled instead. */
  datatype Result<T> = Ok(value: T) | Failure(message: string)

  /** `getAllPlaceNamesFormatted`: the names in order, separated by ",\n", nothing after the last. */
  method FormatNames(names: seq<string>) returns (s: string)
    ensures s == Join(NAME_SEPARATOR, names)
  {
    if names == [] {
      return "";
    }
    s := "";
    for i := 0 to |names|
      invariant i == 0 ==> s == ""
      invariant 0 < i < |names| ==> s == Join(NAME_SEPARATOR, names[..i]) + NAME_SEPARATOR
      invariant 0 < i == |names| ==> s == Join(NAME_SEPARATOR, names)
    {
      assert names[..i + 1][..i] == names[..i];
      s := s + names[i];
      if i < |names| - 1 {
        s := s + NAME_SEPARATOR;
      }
      if i + 1 == |names| {
        assert names[..i + 1] == names;
      }
    }
  }

  /** The formatted list holds every name once, in order, with exactly n - 1 separators:
      it starts with the first name and ends with the last. */
  lemma FormattedNamesShape(names: seq<string>)
    requires names != []
    ensures |Join(NAME_SEPARATOR, names)| == TotalLength(names) + 2 * (|names| - 1)
    ensures |names[0]| <= |Join(NAME_SEPARATOR, names)| && |names[|names| - 1]| <= |Join(NAME_SEPARATOR, names)|
    ensures Join(NAME_SEPARATOR, names)[..|names[0]|] == names[0]
    ensures Join(NAME_SEPARATOR, names)[|Join(NAME_SEPARATOR, names)| - |names[|names| - 1]|..] == names[|names| - 1]
  {
    JoinLength(NAME_SEPARATOR, names);
    JoinEnds(NAME_SEPARATOR, names);
  }

  /** `searchInDatabaseAndCache` as a value: the places found for the normalised name; when
      there are none, the OpenStreetMap place (if in the region) is saved and the query is
      repeated. `saved` is the place written to the repository, if any. */
  function DatabaseSearch(term: string, find: string -> seq<Place>, osm: string -> Option<Place>,
                          findAfterSave: string -> seq<Place>): (result: (seq<Place>, Option<Place>))
    ensures result.1.Some? ==> find(term) == [] && osm(term) == result.1
                               && WithinCameroon(result.1.value.coordinates.lat, result.1.value.coordinates.lng)
    ensures find(term) != [] ==> result == (find(term), None)
    ensures find(term) == [] && osm(term).Some? && WithinCameroon(osm(term).value.coordinates.lat, osm(term).value.coordinates.lng)
            ==> result == (findAfterSave(term), osm(term))
    ensures find(term) == [] && !(osm(term).Some? && WithinCameroon(osm(term).value.coordinates.lat, osm(term).value.coordinates.lng))
            ==> result == ([], None)
    ensures result.0 != [] ==> result.0 == find(term) || result.1.Some?
  {
    if find(term) != [] then (find(term), None)
    else match osm(term)
      case None => ([], None)
      case Some(p) =>
        if WithinCameroon(p.coordinates.lat, p.coordinates.lng) then (findAfterSave(term), Some(p)) else ([], None)
  }

  /** `searchInDatabaseAndCache`: a non-empty result is written to the cache under `key`. */
  method SearchInDatabaseAndCache(cache: AdaptiveCache, term: string, key: string,
                                  find: string -> seq<Place>, osm: string -> Option<Place>,
                                  findAfterSave: string -> seq<Place>, now: int, setFault: bool)
    returns (places: seq<Place>, saved: Option<Place>)
    modifies cache`store
    ensures (places, saved) == DatabaseSearch(term, find, osm, findAfterSave)
    ensures places != [] ==> cache.StoredOrKept(old(cache.store), key, PlaceList(places), now, setFault)
    ensures places == [] ==> cache.store == old(cache.store)
  {
    places := find(term);
    saved := None;
    if places == [] {
      var found := osm(term);
      if found.Some? && WithinCameroon(found.value.coordinates.lat, found.value.coordinates.lng) {
        saved := found;
        places := findAfterSave(term);
      }
    }
    if places != [] {
      var _ := cache.Set(key, PlaceList(places), DEFAULT_TTL_HOURS, now, setFault);
    }
  }

  /** The cache key of a search: the places key of the normalised name. */
  function PlacesKey(name: string, normalize: string -> string): string
  {
    GeneratePlacesKey(Some(normalize(name)))
  }

  /** The list a lookup of the search's key would hit in the current cache, or [] for no hit. */
  function CachedPlaces(cache: AdaptiveCache, name: string, normalize: string -> string, now: int, getFault: bool): seq<Place>
    reads cache
  {
    var c := cache.Classify(PlacesKey(name, normalize), ListKind, now, getFault);
    if c.Hit? then c.value.places else []
  }

  /** `searchPlaces`: a missing or blank name is rejected before the cache is touched; a
      cached non-empty list is returned as stored; otherwise the database search runs. A
      hit on an empty list counts as a hit and still falls through to the database. The
      cache read is the corrected one, which counts a miss for an absent key. */
  method SearchPlaces(cache: AdaptiveCache, name: Option<string>, normalize: string -> string,
                      find: string -> seq<Place>, osm: string -> Option<Place>, findAfterSave: string -> seq<Place>,
                      now: int, getFault: bool, setFault: bool)
    returns (result: Result<seq<Place>>, saved: Option<Place>)
    modifies cache`store, cache`usage, cache`hits, cache`misses
    ensures name.None? || IsBlank(name.value) ==> result == Failure(NAME_REQUIRED) && saved.None? && unchanged(cache)
    ensures name.Some? && !IsBlank(name.value) && old(CachedPlaces(cache, name.value, normalize, now, getFault)) != []
            ==> result == Ok(old(CachedPlaces(cache, name.value, normalize, now, getFault))) && saved.None?
                && cache.store == old(cache.store)
    ensures name.Some? && !IsBlank(name.value) && old(CachedPlaces(cache, name.value, normalize, now, getFault)) == []
            ==> result.Ok? && (result.value, saved) == DatabaseSearch(normalize(name.value), find, osm, findAfterSave)
    ensures name.Some? && !IsBlank(name.value) && old(CachedPlaces(cache, name.value, normalize, now, getFault)) == []
            ==> (result.value != [] ==> cache.StoredOrKept(old(cache.store), PlacesKey(name.value, normalize), PlaceList(result.value), now, setFault))
                && (result.value == [] ==> cache.store == old(cache.store))
    ensures name.Some? && !IsBlank(name.value) && old(cache.Classify(PlacesKey(name.value, normalize), ListKind, now, getFault)).Hit?
            ==> cache.hits == old(cache.hits) + 1 && cache.misses == old(cache.misses)
                && cache.UsageCount(PlacesKey(name.value, normalize)) == old(cache.UsageCount(PlacesKey(name.value, normalize))) + 1
                && (forall k :: k != PlacesKey(name.value, normalize) ==> cache.UsageCount(k) == old(cache.UsageCount(k)))
    ensures name.Some? && !IsBlank(name.value) && !old(cache.Classify(PlacesKey(name.value, normalize), ListKind, now, getFault)).Hit?
            ==> cache.misses == old(cache.misses) + 1 && cache.hits == old(cache.hits) && cache.usage == old(cache.usage)
  {
    if name.None? || IsBlank(name.value) {
      return Failure(NAME_REQUIRED), None;
    }
    var term := normalize(name.value);
    var key := PlacesKey(name.value, normalize);
    var cached := cache.Get(key, ListKind, now, getFault);
    ghost var counted := (cache.usage, cache.hits, cache.misses);
    if cached.Some? && cached.value.places != [] {
      return Ok(cached.value.places), None;
    }
    var places;
    places, saved := SearchInDatabaseAndCache(cache, term, key, find, osm, findAfterSave, now, setFault);
    assert (cache.usage, cache.hits, cache.misses) == counted;
    result := Ok(places);
  }

  /** A Java `double`: NaN, an infinity, or a finite value. */
  datatype Double = NaN | NegativeInfinity | PositiveInfinity | Finite(v: real)

  /** `d < c` in Java: false whenever NaN is involved. */
  predicate Below(d: Double, c: real)
  {
    match d
    case Finite(v) => v < c
    case NegativeInfinity => true
    case _ => false
  }

  /** `d > c` in Java: false whenever NaN is involved. */
  predicate Above(d: Double, c: real)
  {
    match d
    case Finite(v) => v > c
    case PositiveInfinity => true
    case _ => false
  }

  /** `findClosestPlace`: NaN or out-of-range coordinates are rejected; otherwise the
      repository's answer (`nearest`, possibly nothing) is returned. */
  function FindClosestPlace(lat: Double, lng: Double, nearest: (real, real) -> Option<Place>): (r: Result<Option<Place>>)
    ensures r.Ok? <==> lat.Finite? && lng.Finite? && ValidCoordinates(lat.v, lng.v)
    ensures r.Ok? ==> r.value == nearest(lat.v, lng.v)
    ensures r.Failure? ==> r.message == INVALID_COORDINATES
  {
    if lat.NaN? || lng.NaN? || Below(lat, -90.0) || Above(lat, 90.0) || Below(lng, -180.0) || Above(lng, 180.0)
    then Failure(INVALID_COORDINATES)
    else Ok(nearest(lat.v, lng.v))
  }
}
