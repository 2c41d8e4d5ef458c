/** The adaptive result cache: key derivation, the usage-sensitive TTL policy and the
    cache object with its usage counters and hit/miss statistics. The remote store is a
    map field; time is an explicit clock in seconds passed to each call. */
module Cache {
  import opened Model
  import opened Strings

  const PLACES_PREFIX: string := "p:"
  const ROUTE_PREFIX: string := "r:"
  const MAX_PLACES_KEY_LENGTH: nat := 80
  const SHORT_KEY_LENGTH: nat := 30
  const SECONDS_PER_HOUR: nat := 3600
  /** The TTL used for keys with neither prefix. */
  const DEFAULT_TTL_HOURS: nat := 1

  predicate StartsWith(s: string, prefix: string)
  {
    |prefix| <= |s| && s[..|prefix|] == prefix
  }

  // ---------------------------------------------------------------- key normalisation

  /** `toLowerCase` restricted to ASCII letters. */
  function LowerChar(c: char): char
  {
    if 'A' <= c <= 'Z' then (c as int + 32) as char else c
  }

  /** The characters `[a-z0-9_]` that survive normalisation. */
  predicate IsKeyChar(c: char)
  {
    'a' <= c <= 'z' || '0' <= c <= '9' || c == '_'
  }

  function ToLower(s: string): (r: string)
    ensures |r| == |s|
  {
    seq(|s|, i requires 0 <= i < |s| => LowerChar(s[i]))
  }

  /** `replace(" ", "_")`. */
  function ReplaceSpaces(s: string): (r: string)
    ensures |r| == |s|
  {
    seq(|s|, i requires 0 <= i < |s| => if s[i] == ' ' then '_' else s[i])
  }

  /** `replaceAll("[^a-z0-9_]", "")`. */
  function RemoveNonKeyChars(s: string): (r: string)
    ensures forall i :: 0 <= i < |r| ==> IsKeyChar(r[i])
  {
    if s == [] then []
    else (if IsKeyChar(s[0]) then [s[0]] else []) + RemoveNonKeyChars(s[1..])
  }

  /** `normalizeKey`: lower-case, spaces to underscores, drop everything outside
      `[a-z0-9_]`, trim; null gives the empty string. */
  function NormalizeKey(input: Option<string>): (r: string)
    ensures forall i :: 0 <= i < |r| ==> IsKeyChar(r[i])
  {
    match input
    case None => ""
    case Some(s) =>
      var kept := RemoveNonKeyChars(ReplaceSpaces(ToLower(s)));
      TrimOfVisible(kept);
      Trim(kept)
  }

  /** Reference definition of normalisation, one input character at a time:
      a space (after lower-casing) becomes `_`, a key character stays, anything else goes. */
  function KeyCharOf(c: char): string
  {
    var l := LowerChar(c);
    if l == ' ' then "_" else if IsKeyChar(l) then [l] else ""
  }

  function KeyChars(s: string): string
  {
    if s == [] then "" else KeyCharOf(s[0]) + KeyChars(s[1..])
  }

  /** Normalisation agrees with the per-character reference definition. */
  lemma {:induction false} NormalizeKeyIsPerChar(s: string)
    ensures NormalizeKey(Some(s)) == KeyChars(s)
  {
    var kept := RemoveNonKeyChars(ReplaceSpaces(ToLower(s)));
    TrimOfVisible(kept);
    assert NormalizeKey(Some(s)) == kept;
    PipelineIsPerChar(s);
  }

  lemma {:induction false} PipelineIsPerChar(s: string)
    ensures RemoveNonKeyChars(ReplaceSpaces(ToLower(s))) == KeyChars(s)
  {
    if s != [] {
      var t := ReplaceSpaces(ToLower(s));
      assert t[1..] == ReplaceSpaces(ToLower(s[1..]));
      PipelineIsPerChar(s[1..]);
    }
  }

  lemma {:induction false} KeyCharsOfKeyString(s: string)
    requires forall i :: 0 <= i < |s| ==> IsKeyChar(s[i])
    ensures KeyChars(s) == s
  {
    if s != [] {
      KeyCharsOfKeyString(s[1..]);
    }
  }

  /** Normalising twice is normalising once. */
  lemma NormalizeKeyIdempotent(input: Option<string>)
    ensures NormalizeKey(Some(NormalizeKey(input))) == NormalizeKey(input)
  {
    var once := NormalizeKey(input);
    NormalizeKeyIsPerChar(once);
    KeyCharsOfKeyString(once);
  }

  // ---------------------------------------------------------------- key generation

  /** `generatePlacesKey`: "p:" plus the normalised term, cut to 80 characters. */
  function GeneratePlacesKey(term: Option<string>): (key: string)
    ensures StartsWith(key, PLACES_PREFIX)
    ensures |key| <= MAX_PLACES_KEY_LENGTH
    ensures forall i :: |PLACES_PREFIX| <= i < |key| ==> IsKeyChar(key[i])
    ensures StartsWith(PLACES_PREFIX + NormalizeKey(term), key)
    ensures |PLACES_PREFIX + NormalizeKey(term)| <= MAX_PLACES_KEY_LENGTH ==> key == PLACES_PREFIX + NormalizeKey(term)
  {
    PrefixedKey(NormalizeKey(term))
  }

  /** The prefixed key of an already normalised term, cut to 80 characters. */
  function PrefixedKey(normalized: string): (key: string)
    requires forall i :: 0 <= i < |normalized| ==> IsKeyChar(normalized[i])
    ensures StartsWith(key, PLACES_PREFIX)
    ensures |key| <= MAX_PLACES_KEY_LENGTH
    ensures forall i :: |PLACES_PREFIX| <= i < |key| ==> IsKeyChar(key[i])
    ensures StartsWith(PLACES_PREFIX + normalized, key)
    ensures |PLACES_PREFIX + normalized| <= MAX_PLACES_KEY_LENGTH ==> key == PLACES_PREFIX + normalized
  {
    var full := PLACES_PREFIX + normalized;
    PrefixedKeyChars(normalized);
    if |full| > MAX_PLACES_KEY_LENGTH then full[..MAX_PLACES_KEY_LENGTH] else full
  }

  lemma PrefixedKeyChars(normalized: string)
    requires forall i :: 0 <= i < |normalized| ==> IsKeyChar(normalized[i])
    ensures forall i :: |PLACES_PREFIX| <= i < |PLACES_PREFIX + normalized| ==> IsKeyChar((PLACES_PREFIX + normalized)[i])
  {
    forall i | |PLACES_PREFIX| <= i < |PLACES_PREFIX + normalized|
      ensures IsKeyChar((PLACES_PREFIX + normalized)[i])
    {
      assert (PLACES_PREFIX + normalized)[i] == normalized[i - |PLACES_PREFIX|];
    }
  }

  /** `getModeCode`: "w" for walking, "c" for cycling, "d" for null and every other mode. */
  function ModeCode(mode: Option<string>): (code: string)
    ensures code == "w" <==> mode == Some("walking")
    ensures code == "c" <==> mode == Some("cycling")
    ensures code == "d" <==> mode != Some("walking") && mode != Some("cycling")
  {
    match mode
    case None => "d"
    case Some(m) => if m == "walking" then "w" else if m == "cycling" then "c" else "d"
  }

  /** `generateRouteKey`: "r:", the four coordinates and the mode code, separated by ":";
      `fmt4` stands for the `%.4f` rendering of a coordinate. The contract states the
      prefix and the mode-code suffix only. */
  function GenerateRouteKey(start: Point, end: Point, mode: Option<string>, fmt4: real -> string): (key: string)
    ensures StartsWith(key, ROUTE_PREFIX)
    ensures |key| >= 2 && key[|key| - 2..] == ":" + ModeCode(mode)
  {
    ROUTE_PREFIX + fmt4(start.lat) + ":" + fmt4(start.lng) + ":" + fmt4(end.lat) + ":" + fmt4(end.lng)
      + ":" + ModeCode(mode)
  }

  /** `getShortKey`: keys longer than 30 characters are cut to 30 and marked with "...". */
  function ShortKey(key: string): (r: string)
    ensures |r| <= SHORT_KEY_LENGTH + 3
    ensures |key| <= SHORT_KEY_LENGTH ==> r == key
    ensures |key| > SHORT_KEY_LENGTH ==> |r| == SHORT_KEY_LENGTH + 3 && StartsWith(key, r[..SHORT_KEY_LENGTH])
                                         && r[SHORT_KEY_LENGTH..] == "..."
  {
    if |key| > SHORT_KEY_LENGTH then key[..SHORT_KEY_LENGTH] + "..." else key
  }

  // ---------------------------------------------------------------- TTL policy

  /** TTL of a place-search entry, in hours, from the key's usage count. */
  function PlaceTtlHours(usage: nat): (h: nat)
    ensures 2 <= h <= 24
  {
    if usage > 10 then 24
    else if usage > 5 then 12
    else if usage > 2 then 6
    else 2
  }

  /** TTL of the route tier chosen by distance alone. */
  function DistanceTtlHours(distance: real): (h: nat)
    ensures 6 <= h <= 48
  {
    if distance > 100.0 then 48
    else if distance > 50.0 then 24
    else if distance > 20.0 then 12
    else 6
  }

  /** TTL of a route entry: popular keys first, then the route's distance. */
  function RouteTtlHours(usage: nat, distance: real): (h: nat)
    ensures 6 <= h <= 72
  {
    if usage > 15 then 72
    else if usage > 8 then 48
    else DistanceTtlHours(distance)
  }

  /** `getIntelligentTTL` once the usage count and the distance are known: place keys get
      2 to 24 hours, route keys 6 to 72, and only keys with neither prefix the 1-hour default. */
  function TtlHours(key: string, usage: nat, distance: real): (h: nat)
    ensures 1 <= h <= 72
    ensures StartsWith(key, PLACES_PREFIX) ==> 2 <= h <= 24
    ensures StartsWith(key, ROUTE_PREFIX) ==> 6 <= h <= 72
    ensures h == DEFAULT_TTL_HOURS <==> !StartsWith(key, PLACES_PREFIX) && !StartsWith(key, ROUTE_PREFIX)
  {
    if StartsWith(key, PLACES_PREFIX) then PlaceTtlHours(usage)
    else if StartsWith(key, ROUTE_PREFIX) then RouteTtlHours(usage, distance)
    else DEFAULT_TTL_HOURS
  }

  /** A tier of a TTL table: values strictly above `above` get `hours`. */
  datatype Tier = Tier(above: real, hours: nat)

  /** First-match-wins evaluation of a TTL table. */
  function FirstMatch(tiers: seq<Tier>, x: real, fallback: nat): (h: nat)
    ensures h == fallback || exists i :: 0 <= i < |tiers| && h == tiers[i].hours
  {
    if tiers == [] then fallback
    else if x > tiers[0].above then tiers[0].hours
    else FirstMatch(tiers[1..], x, fallback)
  }

  /** Thresholds and hours both decrease down the table, and the fallback is below every tier. */
  predicate Descending(tiers: seq<Tier>, fallback: nat)
  {
    (forall i, j :: 0 <= i < j < |tiers| ==> tiers[j].above <= tiers[i].above && tiers[j].hours <= tiers[i].hours)
    && (forall i :: 0 <= i < |tiers| ==> fallback <= tiers[i].hours)
  }

  const PLACE_TIERS: seq<Tier> := [Tier(10.0, 24), Tier(5.0, 12), Tier(2.0, 6)]
  const PLACE_FALLBACK_HOURS: nat := 2
  const ROUTE_USAGE_TIERS: seq<Tier> := [Tier(15.0, 72), Tier(8.0, 48)]
  const ROUTE_DISTANCE_TIERS: seq<Tier> := [Tier(100.0, 48), Tier(50.0, 24), Tier(20.0, 12)]
  const ROUTE_FALLBACK_HOURS: nat := 6

  /** The coded place policy is the place table read first-match-wins. */
  lemma PlaceTtlIsTable(usage: nat)
    ensures PlaceTtlHours(usage) == FirstMatch(PLACE_TIERS, usage as real, PLACE_FALLBACK_HOURS)
  {
    var x := usage as real;
    assert FirstMatch([Tier(2.0, 6)], x, 2) == if x > 2.0 then 6 else 2 by {
      assert [Tier(2.0, 6)][1..] == [];
    }
    assert FirstMatch([Tier(5.0, 12), Tier(2.0, 6)], x, 2) == if x > 5.0 then 12 else FirstMatch([Tier(2.0, 6)], x, 2) by {
      assert [Tier(5.0, 12), Tier(2.0, 6)][1..] == [Tier(2.0, 6)];
    }
    assert PLACE_TIERS[1..] == [Tier(5.0, 12), Tier(2.0, 6)];
  }

  /** The coded route policy is the usage table whose fallback is the distance table. */
  lemma RouteTtlIsTable(usage: nat, distance: real)
    ensures DistanceTtlHours(distance) == FirstMatch(ROUTE_DISTANCE_TIERS, distance, ROUTE_FALLBACK_HOURS)
    ensures RouteTtlHours(usage, distance)
         == FirstMatch(ROUTE_USAGE_TIERS, usage as real, FirstMatch(ROUTE_DISTANCE_TIERS, distance, ROUTE_FALLBACK_HOURS))
  {
    var f := ROUTE_FALLBACK_HOURS;
    assert FirstMatch([Tier(20.0, 12)], distance, f) == if distance > 20.0 then 12 else f by {
      assert [Tier(20.0, 12)][1..] == [];
    }
    assert FirstMatch([Tier(50.0, 24), Tier(20.0, 12)], distance, f)
        == if distance > 50.0 then 24 else FirstMatch([Tier(20.0, 12)], distance, f) by {
      assert [Tier(50.0, 24), Tier(20.0, 12)][1..] == [Tier(20.0, 12)];
    }
    assert ROUTE_DISTANCE_TIERS[1..] == [Tier(50.0, 24), Tier(20.0, 12)];
    var g := DistanceTtlHours(distance);
    var x := usage as real;
    assert FirstMatch([Tier(8.0, 48)], x, g) == if x > 8.0 then 48 else g by {
      assert [Tier(8.0, 48)][1..] == [];
    }
    assert ROUTE_USAGE_TIERS[1..] == [Tier(8.0, 48)];
  }

  /** A descending table never gives less to a larger value. */
  lemma {:induction false} FirstMatchMonotone(tiers: seq<Tier>, x: real, y: real, fallback: nat)
    requires Descending(tiers, fallback) && x <= y
    ensures FirstMatch(tiers, x, fallback) <= FirstMatch(tiers, y, fallback)
  {
    if tiers != [] && !(x > tiers[0].above) {
      if y > tiers[0].above {
        FirstMatchBelowHead(tiers, x, fallback);
      } else {
        assert Descending(tiers[1..], fallback) by {
          assert forall i :: 0 <= i < |tiers[1..]| ==> tiers[1..][i] == tiers[i + 1];
        }
        FirstMatchMonotone(tiers[1..], x, y, fallback);
      }
    }
  }

  lemma FirstMatchBelowHead(tiers: seq<Tier>, x: real, fallback: nat)
    requires tiers != [] && Descending(tiers, fallback)
    ensures FirstMatch(tiers, x, fallback) <= tiers[0].hours
  {
  }

  /** A larger fallback never lowers the result of a table. */
  lemma {:induction false} FirstMatchFallbackMonotone(tiers: seq<Tier>, x: real, f1: nat, f2: nat)
    requires f1 <= f2
    ensures FirstMatch(tiers, x, f1) <= FirstMatch(tiers, x, f2)
  {
    if tiers != [] && !(x > tiers[0].above) {
      FirstMatchFallbackMonotone(tiers[1..], x, f1, f2);
    }
  }

  /** Place TTL never decreases as a key gets more popular. */
  lemma PlaceTtlMonotone(u1: nat, u2: nat)
    requires u1 <= u2
    ensures PlaceTtlHours(u1) <= PlaceTtlHours(u2)
  {
    PlaceTtlIsTable(u1);
    PlaceTtlIsTable(u2);
    FirstMatchMonotone(PLACE_TIERS, u1 as real, u2 as real, PLACE_FALLBACK_HOURS);
  }

  /** Route TTL never decreases with usage at a fixed distance. */
  lemma RouteTtlMonotoneInUsage(u1: nat, u2: nat, distance: real)
    requires u1 <= u2
    ensures RouteTtlHours(u1, distance) <= RouteTtlHours(u2, distance)
  {
    RouteTtlIsTable(u1, distance);
    RouteTtlIsTable(u2, distance);
    FirstMatchMonotone(ROUTE_USAGE_TIERS, u1 as real, u2 as real, DistanceTtlHours(distance));
  }

  /** Route TTL never decreases with distance at a fixed usage count. */
  lemma RouteTtlMonotoneInDistance(usage: nat, d1: real, d2: real)
    requires d1 <= d2
    ensures RouteTtlHours(usage, d1) <= RouteTtlHours(usage, d2)
  {
    RouteTtlIsTable(usage, d1);
    RouteTtlIsTable(usage, d2);
    FirstMatchMonotone(ROUTE_DISTANCE_TIERS, d1, d2, ROUTE_FALLBACK_HOURS);
    FirstMatchFallbackMonotone(ROUTE_USAGE_TIERS, usage as real, DistanceTtlHours(d1), DistanceTtlHours(d2));
  }

  // ---------------------------------------------------------------- cached values

  /** What the services store: a route response or a list of places. */
  datatype CacheValue = RouteEntry(response: RouteResponse) | PlaceList(places: seq<Place>)

  /** The Java class a caller asks `get` for. */
  datatype ValueKind = RouteResponseKind | ListKind

  function KindOf(v: CacheValue): ValueKind
  {
    match v
    case RouteEntry(_) => RouteResponseKind
    case PlaceList(_) => ListKind
  }

  /** `extractDistance`: the first route's distance of a route response with routes, else 0. */
  function ExtractDistance(v: CacheValue): (d: real)
    ensures d != 0.0 ==> v.RouteEntry? && v.response.routes.Some? && v.response.routes.value != []
    ensures v.RouteEntry? && v.response.routes.Some? && v.response.routes.value != []
            ==> d == v.response.routes.value[0].distance
  {
    match v
    case RouteEntry(RouteResponse(Some(routes), _)) => if routes != [] then routes[0].distance else 0.0
    case _ => 0.0
  }

  /** A stored value and the clock reading (seconds) at which the store drops it. */
  datatype Entry = Entry(value: CacheValue, expiresAt: int)

  /** How a `get` ends. */
  datatype GetCase = Unavailable | StoreFailed | Absent | TypeMismatch | Hit(value: CacheValue)

  class AdaptiveCache {
    /** The remote key-value store. */
    var store: map<string, Entry>
    /** `usageStatistics`: hits recorded per key. */
    var usage: map<string, nat>
    var hits: nat
    var misses: nat
    /** `redisAvailable`, fixed when the service is built. */
    const available: bool

    constructor (available: bool)
      ensures this.available == available
      ensures store == map[] && usage == map[] && hits == 0 && misses == 0
    {
      this.available := available;
      store := map[];
      usage := map[];
      hits := 0;
      misses := 0;
    }

    /** `getUsageCount`: 0 for a key never hit. */
    function UsageCount(key: string): (n: nat)
      reads this`usage
      ensures key !in usage ==> n == 0
    {
      if key in usage then usage[key] else 0
    }

    /** `getIntelligentTTL`, in hours, with the key's current usage count. */
    function IntelligentTtl(key: string, value: CacheValue): (h: nat)
      reads this`usage
      ensures 1 <= h <= 72
    {
      TtlHours(key, UsageCount(key), ExtractDistance(value))
    }

    /** The store holds `key` and its TTL has not elapsed at time `now`. */
    predicate Live(key: string, now: int)
      reads this
    {
      key in store && now < store[key].expiresAt
    }

    /** Which way a `get` goes; `fault` says that the store call fails. */
    function Classify(key: string, kind: ValueKind, now: int, fault: bool): (c: GetCase)
      reads this
      ensures c == Unavailable <==> !available
      ensures c == StoreFailed <==> available && fault
      ensures c == Absent <==> available && !fault && !Live(key, now)
      ensures c == TypeMismatch <==> available && !fault && Live(key, now) && KindOf(store[key].value) != kind
      ensures c.Hit? <==> available && !fault && Live(key, now) && KindOf(store[key].value) == kind
      ensures c.Hit? ==> c.value == store[key].value
    {
      if !available then Unavailable
      else if fault then StoreFailed
      else if !Live(key, now) then Absent
      else if KindOf(store[key].value) != kind then TypeMismatch
      else Hit(store[key].value)
    }

    /** `recordUsage`: the key's count goes up by one, every other count stays. */
    method RecordUsage(key: string)
      modifies this`usage
      ensures UsageCount(key) == old(UsageCount(key)) + 1
      ensures forall k :: k != key ==> UsageCount(k) == old(UsageCount(k))
      ensures usage.Keys == old(usage.Keys) + {key}
    {
      usage := usage[key := UsageCount(key) + 1];
    }

    /** `get`: a typed hit returns the value and counts a hit and a use of the key;
        every other outcome returns nothing and counts one miss. This is the corrected
        behaviour; `GetAsWritten` is the code as it stands. */
    method Get(key: string, kind: ValueKind, now: int, fault: bool) returns (r: Option<CacheValue>)
      modifies this`hits, this`misses, this`usage
      ensures r.Some? <==> old(Classify(key, kind, now, fault)).Hit?
      ensures r.Some? ==> r.value == old(Classify(key, kind, now, fault)).value && KindOf(r.value) == kind
      ensures r.Some? ==> hits == old(hits) + 1 && misses == old(misses)
                          && UsageCount(key) == old(UsageCount(key)) + 1
                          && forall k :: k != key ==> UsageCount(k) == old(UsageCount(k))
      ensures r.None? ==> misses == old(misses) + 1 && hits == old(hits) && usage == old(usage)
    {
      var c := Classify(key, kind, now, fault);
      if c.Hit? {
        hits := hits + 1;
        RecordUsage(key);
        r := Some(c.value);
      } else {
        misses := misses + 1;
        r := None;
      }
    }

    /** `get` as the code is written: the store reports an absent key by completing
        empty, so the miss branch for a missing value is never reached and such a
        lookup changes no counter. */
    method GetAsWritten(key: string, kind: ValueKind, now: int, fault: bool) returns (r: Option<CacheValue>)
      modifies this`hits, this`misses, this`usage
      ensures r.Some? <==> old(Classify(key, kind, now, fault)).Hit?
      ensures r.Some? ==> r.value == old(Classify(key, kind, now, fault)).value
      ensures r.Some? ==> hits == old(hits) + 1 && misses == old(misses)
                          && UsageCount(key) == old(UsageCount(key)) + 1
      ensures old(Classify(key, kind, now, fault)).Absent? ==> unchanged(this)
      ensures r.None? && !old(Classify(key, kind, now, fault)).Absent?
              ==> misses == old(misses) + 1 && hits == old(hits) && usage == old(usage)
    {
      var c := Classify(key, kind, now, fault);
      if c.Hit? {
        hits := hits + 1;
        RecordUsage(key);
        r := Some(c.value);
      } else if c.Absent? {
        r := None;
      } else {
        misses := misses + 1;
        r := None;
      }
    }

    /** The store after a `set` of `value` under `key` at time `now` that fails when `fault`:
        the entry with its adaptive expiry when the store is up, the old store otherwise. */
    predicate StoredOrKept(before: map<string, Entry>, key: string, value: CacheValue, now: int, fault: bool)
      reads this`store, this`usage
    {
      if available && !fault
      then store == before[key := Entry(value, now + IntelligentTtl(key, value) * SECONDS_PER_HOUR)]
      else store == before
    }

    /** `set`: when the store is up, writes the value with the TTL of `getIntelligentTTL`
        (the caller's `requestedTtlHours` is ignored) and reports success; an unavailable
        store or a failing write reports false and writes nothing. Counters never change. */
    method Set(key: string, value: CacheValue, requestedTtlHours: nat, now: int, fault: bool) returns (ok: bool)
      modifies this`store
      ensures ok <==> available && !fault
      ensures ok ==> store == old(store)[key := Entry(value, now + IntelligentTtl(key, value) * SECONDS_PER_HOUR)]
      ensures !ok ==> store == old(store)
    {
      if !available {
        return false;
      }
      var ttl := IntelligentTtl(key, value);
      if fault {
        ok := false;
      } else {
        store := store[key := Entry(value, now + ttl * SECONDS_PER_HOUR)];
        ok := true;
      }
    }
  }

  /** Round trip: a value written to a working store is read back, with the same type,
      until its TTL elapses, and is gone afterwards. */
  method SetThenGet(key: string, value: CacheValue, now: int, later: int) returns (r: Option<CacheValue>)
    requires now <= later
    ensures later < now + TtlHours(key, 0, ExtractDistance(value)) * SECONDS_PER_HOUR <==> r == Some(value)
    ensures later >= now + TtlHours(key, 0, ExtractDistance(value)) * SECONDS_PER_HOUR ==> r == None
  {
    var cache := new AdaptiveCache(true);
    var ok := cache.Set(key, value, 1, now, false);
    r := cache.Get(key, KindOf(value), later, false);
  }

  /** After one write and n reads within the TTL, the key's usage count is n and
      every read was a hit. */
  method UsageAfterHits(key: string, value: CacheValue, n: nat) returns (count: nat, hitCount: nat, missCount: nat)
    ensures count == n && hitCount == n && missCount == 0
  {
    var cache := new AdaptiveCache(true);
    var ok := cache.Set(key, value, 1, 0, false);
    var i := 0;
    while i < n
      invariant 0 <= i <= n
      invariant cache.Live(key, 0) && cache.store[key].value == value
      invariant cache.UsageCount(key) == i && cache.hits == i && cache.misses == 0
    {
      var r := cache.Get(key, KindOf(value), 0, false);
      i := i + 1;
    }
    count, hitCount, missCount := cache.UsageCount(key), cache.hits, cache.misses;
  }

  /** With an unavailable store nothing is ever written and every read is a miss. */
  method UnavailableStore(key: string, value: CacheValue, now: int) returns (written: bool, r: Option<CacheValue>, missCount: nat)
    ensures !written && r == None && missCount == 1
  {
    var cache := new AdaptiveCache(false);
    written := cache.Set(key, value, 1, now, false);
    r := cache.Get(key, KindOf(value), now, false);
    missCount := cache.misses;
  }

  /** The code as written does not count the miss of a key that is not stored. */
  method MissOfAbsentKeyAsWritten(key: string, kind: ValueKind, now: int) returns (r: Option<CacheValue>, missCount: nat)
    ensures r == None && missCount == 0
  {
    var cache := new AdaptiveCache(true);
    r := cache.GetAsWritten(key, kind, now, false);
    missCount := cache.misses;
  }

  /** The corrected `get` counts it. */
  method MissOfAbsentKey(key: string, kind: ValueKind, now: int) returns (r: Option<CacheValue>, missCount: nat)
    ensures r == None && missCount == 1
  {
    var cache := new AdaptiveCache(true);
    r := cache.Get(key, kind, now, false);
    missCount := cache.misses;
  }
}
