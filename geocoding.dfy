/** Address geocoding (OpenStreetMap Nominatim first, Google as a fallback)
    and distance matrices (OSRM first, Google as a fallback). Every HTTP
    call is a parameter: a function from the request the service builds to
    the decoded response, or `Threw` for a network error, a non-2xx status
    raised by `raise_for_status`, or undecodable JSON. */
module Geocoding {
  import opened Support

  // ---------------------------------------------------------------- geocoding

  datatype GeoSource = FromOsm | FromGoogle

  /** A geocoding result as the service returns it. */
  datatype GeoResult = GeoResult(latitude: real, longitude: real, formattedAddress: string, source: GeoSource)

  /** The query sent to Nominatim: the address, JSON, one result, restricted
      to the Dominican Republic. */
  datatype OsmQuery = OsmQuery(q: string, format: string, limit: nat, countryCodes: string, userAgent: string)

  /** One Nominatim hit; a field is None when it is missing or, for the
      coordinates, not parseable as a float. */
  datatype OsmHit = OsmHit(lat: Option<real>, lon: Option<real>, displayName: Option<string>)

  /** The query sent to the Google geocoding API. */
  datatype GoogleGeoQuery = GoogleGeoQuery(address: string, region: string)

  datatype LatLng = LatLng(lat: real, lng: real)

  /** One Google hit: `geometry.location` and `formatted_address`, None when missing. */
  datatype GoogleHit = GoogleHit(location: Option<LatLng>, formattedAddress: Option<string>)

  /** A Google geocoding response: its `status` and `results` keys, None when missing. */
  datatype GoogleGeoResponse = GoogleGeoResponse(status: Option<string>, results: Option<seq<GoogleHit>>)

  /** The result of geocoding and the providers that were asked, in order. */
  datatype Geocoded = Geocoded(result: Option<GeoResult>, calls: seq<GeoSource>)

  const DefaultCity: string := "Santo Domingo"
  const DefaultCountry: string := "República Dominicana"
  const NominatimAgent: string := "RutasRD-SaaS/1.0 (contacto@rutasrd.com)"

  /** The address sent to the providers: street, city and country separated by ", ". */
  function FullAddress(address: string, city: string, country: string): (r: string)
    ensures |r| == |address| + |city| + |country| + 4
    ensures r[..|address|] == address
    ensures r[|address|..|address| + 2] == ", "
    ensures r[|address| + 2..|address| + 2 + |city|] == city
    ensures r[|r| - |country|..] == country
  {
    address + ", " + city + ", " + country
  }

  function OsmQueryFor(address: string): OsmQuery
  {
    OsmQuery(address, "json", 1, "do", NominatimAgent)
  }

  /** Nominatim's answer turned into a result: none for an empty list, the
      first hit when its fields are all present, an exception otherwise. */
  function GeocodeOsm(address: string, osm: OsmQuery -> Computed<seq<OsmHit>>): (r: Computed<Option<GeoResult>>)
    ensures r == Value(None) <==> osm(OsmQueryFor(address)) == Value([])
    ensures r.Value? && r.value.Some? ==>
              && osm(OsmQueryFor(address)).Value? && osm(OsmQueryFor(address)).value != []
              && var h := osm(OsmQueryFor(address)).value[0];
                 && h.lat.Some? && h.lon.Some? && h.displayName.Some?
                 && r.value.value == GeoResult(h.lat.value, h.lon.value, h.displayName.value, FromOsm)
    ensures r.Threw? <==>
              || osm(OsmQueryFor(address)).Threw?
              || (osm(OsmQueryFor(address)).value != []
                  && var h := osm(OsmQueryFor(address)).value[0];
                     h.lat.None? || h.lon.None? || h.displayName.None?)
  {
    match osm(OsmQueryFor(address))
    case Threw => Threw
    case Value(hits) =>
      if hits == [] then Value(None)
      else
        var h := hits[0];
        if h.lat.None? || h.lon.None? || h.displayName.None? then Threw
        else Value(Some(GeoResult(h.lat.value, h.lon.value, h.displayName.value, FromOsm)))
  }

  /** Google's answer turned into a result: a usable result only with status
      "OK" and a non-empty result list; `results` is read only after the
      status matched; a first hit without location or address raises. */
  function GeocodeGoogle(address: string, google: GoogleGeoQuery -> Computed<GoogleGeoResponse>)
    : (r: Computed<Option<GeoResult>>)
    ensures r.Value? && r.value.Some? ==>
              && google(GoogleGeoQuery(address, "do")).Value?
              && var resp := google(GoogleGeoQuery(address, "do")).value;
              && resp.status == Some("OK") && resp.results.Some? && resp.results.value != []
              && resp.results.value[0].location.Some? && resp.results.value[0].formattedAddress.Some?
              && r.value.value == GeoResult(resp.results.value[0].location.value.lat,
                                            resp.results.value[0].location.value.lng,
                                            resp.results.value[0].formattedAddress.value, FromGoogle)
    ensures google(GoogleGeoQuery(address, "do")).Value?
            && google(GoogleGeoQuery(address, "do")).value.status.Some?
            && google(GoogleGeoQuery(address, "do")).value.status != Some("OK")
            ==> r == Value(None)
    ensures google(GoogleGeoQuery(address, "do")) == Value(GoogleGeoResponse(Some("OK"), Some([]))) ==> r == Value(None)
    ensures var answer := google(GoogleGeoQuery(address, "do"));
            (&& answer.Value? && answer.value.status == Some("OK")
             && answer.value.results.Some? && answer.value.results.value != []
             && answer.value.results.value[0].location.Some?
             && answer.value.results.value[0].formattedAddress.Some?)
            ==> var h := answer.value.results.value[0];
                r == Value(Some(GeoResult(h.location.value.lat, h.location.value.lng,
                                          h.formattedAddress.value, FromGoogle)))
    ensures r.Threw? <==>
              || google(GoogleGeoQuery(address, "do")).Threw?
              || (var resp := google(GoogleGeoQuery(address, "do")).value;
                  || resp.status.None?
                  || (resp.status == Some("OK")
                      && (|| resp.results.None?
                          || (resp.results.value != []
                              && (resp.results.value[0].location.None? || resp.results.value[0].formattedAddress.None?)))))
  {
    match google(GoogleGeoQuery(address, "do"))
    case Threw => Threw
    case Value(resp) =>
      if resp.status.None? then Threw
      else if resp.status.value != "OK" then Value(None)
      else if resp.results.None? then Threw
      else if resp.results.value == [] then Value(None)
      else
        var h := resp.results.value[0];
        if h.location.None? || h.formattedAddress.None? then Threw
        else Value(Some(GeoResult(h.location.value.lat, h.location.value.lng, h.formattedAddress.value, FromGoogle)))
  }

  /** `geocode_address`: OSM first; when it raised or found nothing and a
      Google key is configured, Google; an exception from Google is logged
      and gives no result. */
  function GeocodeAddress(address: string, city: string, country: string, googleKey: bool,
                          osm: OsmQuery -> Computed<seq<OsmHit>>,
                          google: GoogleGeoQuery -> Computed<GoogleGeoResponse>): (r: Geocoded)
    ensures var full := FullAddress(address, city, country);
            var fromOsm := GeocodeOsm(full, osm);
            && (fromOsm.Value? && fromOsm.value.Some? ==> r == Geocoded(fromOsm.value, [FromOsm]))
            && (!(fromOsm.Value? && fromOsm.value.Some?) ==>
                  && r.calls == (if googleKey then [FromOsm, FromGoogle] else [FromOsm])
                  && (r.result.Some? <==> googleKey && GeocodeGoogle(full, google).Value?
                                          && GeocodeGoogle(full, google).value.Some?))
    ensures r.result.Some? ==> r.calls[|r.calls| - 1] == r.result.value.source
  {
    var full := FullAddress(address, city, country);
    match GeocodeOsm(full, osm)
    case Value(Some(found)) => Geocoded(Some(found), [FromOsm])
    case _ =>
      if !googleKey then Geocoded(None, [FromOsm])
      else
        match GeocodeGoogle(full, google)
        case Threw => Geocoded(None, [FromOsm, FromGoogle])
        case Value(x) => Geocoded(x, [FromOsm, FromGoogle])
  }

  /** A Google response with status "OK" whose first hit has no geometry
      yields no result, without an exception escaping. */
  lemma MissingGeometryGivesNothing(address: string, osm: OsmQuery -> Computed<seq<OsmHit>>,
                                    google: GoogleGeoQuery -> Computed<GoogleGeoResponse>)
    requires osm(OsmQueryFor(FullAddress(address, DefaultCity, DefaultCountry))) == Value([])
    requires google(GoogleGeoQuery(FullAddress(address, DefaultCity, DefaultCountry), "do"))
             == Value(GoogleGeoResponse(Some("OK"), Some([GoogleHit(None, Some("Santo Domingo"))])))
    ensures GeocodeAddress(address, DefaultCity, DefaultCountry, true, osm, google)
            == Geocoded(None, [FromOsm, FromGoogle])
  {
    var full := FullAddress(address, DefaultCity, DefaultCountry);
    assert GeocodeOsm(full, osm) == Value(None);
    assert GeocodeGoogle(full, google) == Threw;
  }

  // ------------------------------------------------------------ matrices

  /** A point given by its coordinates. */
  datatype Point = Point(latitude: real, longitude: real)

  /** OSRM identifies a point by (longitude, latitude). */
  datatype LngLat = LngLat(lng: real, lat: real)

  function KeyOf(p: Point): LngLat { LngLat(p.longitude, p.latitude) }

  /** A matrix cell: a value, or infinity for a pair Google could not route. */
  datatype Cell = Finite(v: int) | Unreachable

  datatype MatrixSource = FromOsrm | FromGoogleMatrix

  datatype MatrixResult = MatrixResult(distances: seq<seq<Cell>>, durations: seq<seq<Cell>>, source: MatrixSource)

  /** The table request sent to OSRM: the points in the URL and the
      `sources` and `destinations` parameters, as text. */
  datatype OsrmRequest = OsrmRequest(points: seq<LngLat>, sources: string, destinations: string)

  /** An OSRM response: its `code`, and its matrices. */
  datatype OsrmResponse = OsrmResponse(code: Option<string>, distances: Option<seq<seq<Cell>>>,
                                       durations: Option<seq<seq<Cell>>>)

  /** The request sent to the Google distance matrix API. */
  datatype GoogleMatrixRequest = GoogleMatrixRequest(origins: seq<Point>, destinations: seq<Point>,
                                                     mode: string, region: string)

  /** One element of a Google matrix row. */
  datatype Element = Element(status: string, distance: Option<int>, duration: Option<int>)

  datatype GoogleMatrixResponse = GoogleMatrixResponse(status: Option<string>, rows: Option<seq<seq<Element>>>)

  /** The points in first-occurrence order with repeats dropped, as the
      OSRM request builds them. */
  function Dedup(xs: seq<LngLat>): seq<LngLat>
  {
    if xs == [] then []
    else
      var d := Dedup(xs[..|xs| - 1]);
      if xs[|xs| - 1] in d then d else d + [xs[|xs| - 1]]
  }

  ghost predicate NoRepeats<T>(xs: seq<T>)
  {
    forall i, j :: 0 <= i < j < |xs| ==> xs[i] != xs[j]
  }

  /** Deduplication keeps exactly the points it was given, each once, and
      changes nothing when there are no repeats. */
  lemma {:induction false} DedupSpec(xs: seq<LngLat>)
    ensures NoRepeats(Dedup(xs))
    ensures forall x :: x in Dedup(xs) <==> x in xs
    ensures |Dedup(xs)| <= |xs|
    ensures NoRepeats(xs) ==> Dedup(xs) == xs
  {
    if xs != [] {
      var init := xs[..|xs| - 1];
      DedupSpec(init);
      assert xs == init + [xs[|xs| - 1]];
      if NoRepeats(xs) {
        assert NoRepeats(init) by {
          forall i, j | 0 <= i < j < |init| ensures init[i] != init[j] {
            assert init[i] == xs[i] && init[j] == xs[j];
          }
        }
        assert xs[|xs| - 1] !in init by {
          forall i | 0 <= i < |init| ensures init[i] != xs[|xs| - 1] {
            assert init[i] == xs[i];
          }
        }
      }
    }
  }

  /** The index of the first occurrence of `x`. */
  function IndexIn(xs: seq<LngLat>, x: LngLat): (i: nat)
    requires x in xs
    ensures i < |xs| && xs[i] == x
    ensures forall j :: 0 <= j < i ==> xs[j] != x
  {
    if xs[0] == x then 0 else 1 + IndexIn(xs[1..], x)
  }

  /** `';'.join(str(i) for i in ns)`. */
  function IndexList(ns: seq<nat>): string
  {
    Join(seq(|ns|, k requires 0 <= k < |ns| => NatToString(ns[k])), ';')
  }

  /** `range(lo, hi)`. */
  function Range(lo: nat, hi: nat): (r: seq<nat>)
    ensures |r| == if lo <= hi then hi - lo else 0
    ensures forall k :: 0 <= k < |r| ==> r[k] == lo + k
  {
    if lo < hi then seq(hi - lo, k requires 0 <= k < hi - lo => lo + k) else []
  }

  /** Source and destination indices as the OSRM request computes them:
      over the deduplicated point list, origins are the first `|origins|`
      positions and destinations are the positions after them. */
  function OsrmIndicesAsWritten(origins: seq<Point>, destinations: seq<Point>): (seq<nat>, seq<nat>)
  {
    var all := Dedup(Keys(origins + destinations));
    (Range(0, |origins|), Range(|origins|, |all|))
  }

  /** Source and destination indices by position of each point in the
      deduplicated list, so that every origin and every destination has one. */
  function OsrmIndices(origins: seq<Point>, destinations: seq<Point>): (r: (seq<nat>, seq<nat>))
    ensures |r.0| == |origins| && |r.1| == |destinations|
    ensures forall k :: 0 <= k < |origins| ==>
              r.0[k] < |Dedup(Keys(origins + destinations))| && Dedup(Keys(origins + destinations))[r.0[k]] == KeyOf(origins[k])
    ensures forall k :: 0 <= k < |destinations| ==>
              r.1[k] < |Dedup(Keys(origins + destinations))| && Dedup(Keys(origins + destinations))[r.1[k]] == KeyOf(destinations[k])
  {
    var all := Dedup(Keys(origins + destinations));
    DedupSpec(Keys(origins + destinations));
    KeysIn(origins, destinations);
    (seq(|origins|, k requires 0 <= k < |origins| => IndexIn(all, KeyOf(origins[k]))),
     seq(|destinations|, k requires 0 <= k < |destinations| => IndexIn(all, KeyOf(destinations[k]))))
  }

  function Keys(ps: seq<Point>): (r: seq<LngLat>)
    ensures |r| == |ps| && forall k :: 0 <= k < |ps| ==> r[k] == KeyOf(ps[k])
  {
    seq(|ps|, k requires 0 <= k < |ps| => KeyOf(ps[k]))
  }

  lemma KeysIn(origins: seq<Point>, destinations: seq<Point>)
    ensures forall k :: 0 <= k < |origins| ==> KeyOf(origins[k]) in Keys(origins + destinations)
    ensures forall k :: 0 <= k < |destinations| ==> KeyOf(destinations[k]) in Keys(origins + destinations)
  {
    var all := Keys(origins + destinations);
    forall k | 0 <= k < |origins| ensures KeyOf(origins[k]) in all {
      assert all[k] == KeyOf((origins + destinations)[k]);
    }
    forall k | 0 <= k < |destinations| ensures KeyOf(destinations[k]) in all {
      assert all[|origins| + k] == KeyOf((origins + destinations)[|origins| + k]);
    }
  }

  /** When no point repeats over origins and destinations together, the
      corrected indices are the ones the request computes. */
  lemma OsrmIndicesAgreeWithoutRepeats(origins: seq<Point>, destinations: seq<Point>)
    requires NoRepeats(Keys(origins + destinations))
    ensures OsrmIndices(origins, destinations) == OsrmIndicesAsWritten(origins, destinations)
  {
    var keys := Keys(origins + destinations);
    DedupSpec(keys);
    OriginIndices(origins, destinations);
    DestinationIndices(origins, destinations);
  }

  lemma OriginIndices(origins: seq<Point>, destinations: seq<Point>)
    requires NoRepeats(Keys(origins + destinations))
    ensures OsrmIndices(origins, destinations).0 == Range(0, |origins|)
  {
    var keys := Keys(origins + destinations);
    DedupSpec(keys);
    var r := OsrmIndices(origins, destinations).0;
    forall k | 0 <= k < |origins| ensures r[k] == k {
      assert keys[k] == KeyOf((origins + destinations)[k]);
      UniqueIndex(keys, r[k], k);
    }
    IsRange(r, 0, |origins|);
  }

  lemma DestinationIndices(origins: seq<Point>, destinations: seq<Point>)
    requires NoRepeats(Keys(origins + destinations))
    ensures OsrmIndices(origins, destinations).1 == Range(|origins|, |Dedup(Keys(origins + destinations))|)
  {
    var keys := Keys(origins + destinations);
    DedupSpec(keys);
    assert Dedup(keys) == keys;
    var r := OsrmIndices(origins, destinations).1;
    forall k | 0 <= k < |destinations| ensures r[k] == |origins| + k {
      assert (origins + destinations)[|origins| + k] == destinations[k];
      assert keys[|origins| + k] == KeyOf(destinations[k]);
      assert r[k] < |keys| && keys[r[k]] == KeyOf(destinations[k]);
      UniqueIndex(keys, r[k], |origins| + k);
    }
    IsRange(r, |origins|, |keys|);
  }

  lemma IsRange(s: seq<nat>, lo: nat, hi: nat)
    requires lo <= hi && |s| == hi - lo
    requires forall k :: 0 <= k < |s| ==> s[k] == lo + k
    ensures s == Range(lo, hi)
  {
  }

  lemma UniqueIndex<T>(xs: seq<T>, i: nat, j: nat)
    requires NoRepeats(xs) && i < |xs| && j < |xs| && xs[i] == xs[j]
    ensures i == j
  {
  }

  /** With the same point as origin and destination the request as written
      asks for no destination at all (an empty `destinations` text), while
      one is meant. */
  lemma OsrmIndicesAsWrittenDropsDestinations()
    ensures var p := Point(18.4861, -69.9312);
            && OsrmIndicesAsWritten([p], [p]) == ([0], [])
            && IndexList(OsrmIndicesAsWritten([p], [p]).1) == ""
            && OsrmIndices([p], [p]) == ([0], [0])
  {
    var p := Point(18.4861, -69.9312);
    var keys := Keys([p] + [p]);
    assert keys == [KeyOf(p), KeyOf(p)];
    assert keys[..1] == [KeyOf(p)];
    assert Dedup(keys[..1][..0]) == [];
    assert Dedup(keys[..1]) == [KeyOf(p)];
    assert Dedup(keys) == [KeyOf(p)];
    assert Range(0, 1) == [0];
    assert Range(1, 1) == [];
    var r := OsrmIndices([p], [p]);
    assert [p] + [p] == [p, p];
    assert r.0[0] < 1 && r.1[0] < 1;
    assert r.0 == [0] && r.1 == [0];
  }

  /** Collect the points in first-occurrence order, as the request does with
      a list and a set. */
  method CollectPoints(ps: seq<Point>) returns (all: seq<LngLat>)
    ensures all == Dedup(Keys(ps))
  {
    all := [];
    var seen: set<LngLat> := {};
    var keys := Keys(ps);
    assert keys[..0] == [];
    for i := 0 to |ps|
      invariant all == Dedup(keys[..i])
      invariant seen == set x | x in all
    {
      assert keys[..i + 1][..i] == keys[..i] && keys[..i + 1][i] == KeyOf(ps[i]);
      var key := KeyOf(ps[i]);
      if key !in seen {
        all := all + [key];
        seen := seen + {key};
      }
    }
    assert keys[..|ps|] == keys;
  }

  /** The table request for the given points: the deduplicated points in
      the URL, the first `|origins|` positions as `sources` and the
      positions from `|origins|` to the end of the deduplicated list as
      `destinations`. */
  function OsrmRequestFor(origins: seq<Point>, destinations: seq<Point>): OsrmRequest
  {
    var idx := OsrmIndicesAsWritten(origins, destinations);
    OsrmRequest(Dedup(Keys(origins + destinations)), IndexList(idx.0), IndexList(idx.1))
  }

  /** A list without repeats whose members all occur in `ys` is no longer than `ys`. */
  lemma {:induction false} NoRepeatsBound<T>(xs: seq<T>, ys: seq<T>)
    requires NoRepeats(xs) && forall x :: x in xs ==> x in ys
    ensures |xs| <= |ys|
    decreases |xs|
  {
    if xs != [] {
      var x := xs[|xs| - 1];
      var init := xs[..|xs| - 1];
      assert x in xs;
      var i :| 0 <= i < |ys| && ys[i] == x;
      var rest := ys[..i] + ys[i + 1..];
      forall y | y in init ensures y in rest {
        var a :| 0 <= a < |init| && init[a] == y;
        assert xs[a] == y && y != x;
        assert y in xs;
        var b :| 0 <= b < |ys| && ys[b] == y;
        if b < i { assert rest[b] == y; } else { assert rest[b - 1] == y; }
      }
      assert NoRepeats(init) by {
        forall a, b | 0 <= a < b < |init| ensures init[a] != init[b] {
          assert init[a] == xs[a] && init[b] == xs[b];
        }
      }
      NoRepeatsBound(init, rest);
    }
  }

  /** When every destination is also an origin, the deduplicated list holds
      no more points than there are origins, so the request asks for no
      destination at all. */
  lemma OsrmRequestDropsCoveredDestinations(origins: seq<Point>, destinations: seq<Point>)
    requires forall k :: 0 <= k < |destinations| ==> KeyOf(destinations[k]) in Keys(origins)
    ensures OsrmRequestFor(origins, destinations).destinations == ""
  {
    var keys := Keys(origins + destinations);
    var all := Dedup(keys);
    DedupSpec(keys);
    forall x | x in all ensures x in Keys(origins) {
      var k :| 0 <= k < |keys| && keys[k] == x;
      if k < |origins| {
        assert keys[k] == KeyOf(origins[k]) == Keys(origins)[k];
      } else {
        assert (origins + destinations)[k] == destinations[k - |origins|];
      }
    }
    NoRepeatsBound(all, Keys(origins));
    assert Range(|origins|, |all|) == [];
    assert IndexList([]) == Join([], ';');
  }

  /** What an OSRM answer gives: the matrices for code "Ok", no matrix for
      any other code, an exception for a failed call or a missing key. */
  function OsrmOutcome(resp: Computed<OsrmResponse>): (r: Computed<Option<MatrixResult>>)
    ensures r.Threw? <==> resp.Threw? || resp.value.code.None?
                          || (resp.value.code == Some("Ok") && (resp.value.distances.None? || resp.value.durations.None?))
    ensures r == Value(None) <==> resp.Value? && resp.value.code.Some? && resp.value.code != Some("Ok")
    ensures r.Value? && r.value.Some? ==>
              && resp.Value? && resp.value.code == Some("Ok")
              && r.value.value == MatrixResult(resp.value.distances.value, resp.value.durations.value, FromOsrm)
  {
    match resp
    case Threw => Threw
    case Value(data) =>
      if data.code.None? then Threw
      else if data.code.value != "Ok" then Value(None)
      else if data.distances.None? || data.durations.None? then Threw
      else Value(Some(MatrixResult(data.distances.value, data.durations.value, FromOsrm)))
  }

  /** `_get_osrm_matrix`: collect the points, build the request, interpret
      the answer. */
  method OsrmMatrix(origins: seq<Point>, destinations: seq<Point>,
                    osrm: OsrmRequest -> Computed<OsrmResponse>)
    returns (r: Computed<Option<MatrixResult>>, request: OsrmRequest)
    ensures request == OsrmRequestFor(origins, destinations)
    ensures r == OsrmOutcome(osrm(request))
  {
    var all := CollectPoints(origins + destinations);
    request := OsrmRequest(all, IndexList(Range(0, |origins|)), IndexList(Range(|origins|, |all|)));
    r := OsrmOutcome(osrm(request));
  }

  /** The `sources` and `destinations` texts decode back to the indices they
      were built from. */
  lemma IndexListDecodes(ns: seq<nat>)
    requires ns != []
    ensures Split(IndexList(ns), ';') == seq(|ns|, k requires 0 <= k < |ns| => NatToString(ns[k]))
  {
    var pieces := seq(|ns|, k requires 0 <= k < |ns| => NatToString(ns[k]));
    forall k | 0 <= k < |pieces| ensures ';' !in pieces[k] {
      assert forall m :: 0 <= m < |pieces[k]| ==> '0' <= pieces[k][m] <= '9';
    }
    SplitJoin(pieces, ';');
  }

  /** The cell for a Google element: its value when the element's status is
      "OK", infinity otherwise; None when an "OK" element lacks a value. */
  function ElementCells(e: Element): (r: Option<(Cell, Cell)>)
    ensures r.None? <==> e.status == "OK" && (e.distance.None? || e.duration.None?)
    ensures r.Some? && e.status == "OK" ==> r.value == (Finite(e.distance.value), Finite(e.duration.value))
    ensures r.Some? && e.status != "OK" ==> r.value == (Unreachable, Unreachable)
  {
    if e.status != "OK" then Some((Unreachable, Unreachable))
    else if e.distance.None? || e.duration.None? then None
    else Some((Finite(e.distance.value), Finite(e.duration.value)))
  }

  /** Whether every element can be turned into cells. */
  predicate ElementsWellFormed(rows: seq<seq<Element>>)
  {
    forall i, j :: 0 <= i < |rows| && 0 <= j < |rows[i]| ==> ElementCells(rows[i][j]).Some?
  }

  /** The distance matrix of well-formed rows, cell by cell. */
  function DistanceGrid(rows: seq<seq<Element>>): seq<seq<Cell>>
    requires ElementsWellFormed(rows)
  {
    seq(|rows|, i requires 0 <= i < |rows| =>
      seq(|rows[i]|, j requires 0 <= j < |rows[i]| => ElementCells(rows[i][j]).value.0))
  }

  /** The duration matrix of well-formed rows, cell by cell. */
  function DurationGrid(rows: seq<seq<Element>>): seq<seq<Cell>>
    requires ElementsWellFormed(rows)
  {
    seq(|rows|, i requires 0 <= i < |rows| =>
      seq(|rows[i]|, j requires 0 <= j < |rows[i]| => ElementCells(rows[i][j]).value.1))
  }

  /** What a Google matrix answer gives: the matrices for status "OK" with
      readable rows, no matrix for any other status, an exception for a
      failed call, a missing key or an unreadable "OK" element. */
  function GoogleMatrixOutcome(resp: Computed<GoogleMatrixResponse>): Computed<Option<MatrixResult>>
  {
    match resp
    case Threw => Threw
    case Value(data) =>
      if data.status.None? then Threw
      else if data.status.value != "OK" then Value(None)
      else if data.rows.None? || !ElementsWellFormed(data.rows.value) then Threw
      else Value(Some(MatrixResult(DistanceGrid(data.rows.value), DurationGrid(data.rows.value), FromGoogleMatrix)))
  }

  /** The nested loop over Google's rows and elements. It raises (None) at
      the first "OK" element without a value; otherwise both matrices have
      the rows' shape and each cell is the element's value or infinity. */
  method GoogleCells(rows: seq<seq<Element>>) returns (r: Option<(seq<seq<Cell>>, seq<seq<Cell>>)>)
    ensures r.Some? <==> ElementsWellFormed(rows)
    ensures r.Some? ==>
              var (dist, dur) := r.value;
              && |dist| == |rows| && |dur| == |rows|
              && (forall i :: 0 <= i < |rows| ==> |dist[i]| == |rows[i]| && |dur[i]| == |rows[i]|)
              && (forall i, j :: 0 <= i < |rows| && 0 <= j < |rows[i]| ==>
                    (dist[i][j], dur[i][j]) == ElementCells(rows[i][j]).value)
    ensures r.Some? ==> r.value == (DistanceGrid(rows), DurationGrid(rows))
  {
    var distances: seq<seq<Cell>> := [];
    var durations: seq<seq<Cell>> := [];
    for i := 0 to |rows|
      invariant |distances| == i && |durations| == i
      invariant forall a, j :: 0 <= a < i && 0 <= j < |rows[a]| ==> ElementCells(rows[a][j]).Some?
      invariant forall a :: 0 <= a < i ==> |distances[a]| == |rows[a]| && |durations[a]| == |rows[a]|
      invariant forall a, j :: 0 <= a < i && 0 <= j < |rows[a]| ==>
                  (distances[a][j], durations[a][j]) == ElementCells(rows[a][j]).value
    {
      var rowDistances: seq<Cell> := [];
      var rowDurations: seq<Cell> := [];
      for j := 0 to |rows[i]|
        invariant |rowDistances| == j && |rowDurations| == j
        invariant forall b :: 0 <= b < j ==> ElementCells(rows[i][b]).Some?
        invariant forall b :: 0 <= b < j ==> (rowDistances[b], rowDurations[b]) == ElementCells(rows[i][b]).value
      {
        var e := rows[i][j];
        if e.status == "OK" {
          if e.distance.None? || e.duration.None? {
            return None;
          }
          rowDistances := rowDistances + [Finite(e.distance.value)];
          rowDurations := rowDurations + [Finite(e.duration.value)];
        } else {
          rowDistances := rowDistances + [Unreachable];
          rowDurations := rowDurations + [Unreachable];
        }
      }
      distances := distances + [rowDistances];
      durations := durations + [rowDurations];
    }
    GridsOf(rows, distances, durations);
    r := Some((distances, durations));
  }

  lemma GridsOf(rows: seq<seq<Element>>, dist: seq<seq<Cell>>, dur: seq<seq<Cell>>)
    requires ElementsWellFormed(rows)
    requires |dist| == |rows| && |dur| == |rows|
    requires forall i :: 0 <= i < |rows| ==> |dist[i]| == |rows[i]| && |dur[i]| == |rows[i]|
    requires forall i, j :: 0 <= i < |rows| && 0 <= j < |rows[i]| ==>
               (dist[i][j], dur[i][j]) == ElementCells(rows[i][j]).value
    ensures dist == DistanceGrid(rows) && dur == DurationGrid(rows)
  {
    forall i | 0 <= i < |rows| ensures dist[i] == DistanceGrid(rows)[i] && dur[i] == DurationGrid(rows)[i] {
      assert forall j :: 0 <= j < |rows[i]| ==> dist[i][j] == DistanceGrid(rows)[i][j];
      assert forall j :: 0 <= j < |rows[i]| ==> dur[i][j] == DurationGrid(rows)[i][j];
    }
  }

  /** `_get_google_matrix`: a matrix only for status "OK". */
  method GoogleMatrix(origins: seq<Point>, destinations: seq<Point>,
                      google: GoogleMatrixRequest -> Computed<GoogleMatrixResponse>)
    returns (r: Computed<Option<MatrixResult>>)
    ensures r == GoogleMatrixOutcome(google(GoogleMatrixRequest(origins, destinations, "driving", "do")))
    ensures var resp := google(GoogleMatrixRequest(origins, destinations, "driving", "do"));
            && (r.Value? && r.value.None? <==> resp.Value? && resp.value.status.Some? && resp.value.status != Some("OK"))
            && (r.Value? && r.value.Some? <==>
                  resp.Value? && resp.value.status == Some("OK") && resp.value.rows.Some?
                  && ElementsWellFormed(resp.value.rows.value))
            && (r.Value? && r.value.Some? ==>
                  && r.value.value.source == FromGoogleMatrix
                  && |r.value.value.distances| == |resp.value.rows.value|
                  && |r.value.value.durations| == |resp.value.rows.value|
                  && forall i, j :: 0 <= i < |resp.value.rows.value| && 0 <= j < |resp.value.rows.value[i]| ==>
                       j < |r.value.value.distances[i]| && j < |r.value.value.durations[i]|
                       && (r.value.value.distances[i][j], r.value.value.durations[i][j])
                          == ElementCells(resp.value.rows.value[i][j]).value)
  {
    var resp := google(GoogleMatrixRequest(origins, destinations, "driving", "do"));
    if resp.Threw? || resp.value.status.None? {
      return Threw;
    }
    if resp.value.status.value != "OK" {
      return Value(None);
    }
    if resp.value.rows.None? {
      return Threw;
    }
    var cells := GoogleCells(resp.value.rows.value);
    if cells.None? {
      return Threw;
    }
    r := Value(Some(MatrixResult(cells.value.0, cells.value.1, FromGoogleMatrix)));
  }

  /** `get_distance_matrix`: OSRM first; Google only when OSRM raised and a
      key is configured; OSRM's "no matrix" answer is returned as it is;
      an exception from Google gives no matrix. `calls` lists the providers
      asked, in order. */
  method GetDistanceMatrix(origins: seq<Point>, destinations: seq<Point>, googleKey: bool,
                           osrm: OsrmRequest -> Computed<OsrmResponse>,
                           google: GoogleMatrixRequest -> Computed<GoogleMatrixResponse>)
    returns (r: Option<MatrixResult>, calls: seq<MatrixSource>)
    ensures var fromOsrm := OsrmOutcome(osrm(OsrmRequestFor(origins, destinations)));
            && (fromOsrm.Value? ==> r == fromOsrm.value && calls == [FromOsrm])
            && (fromOsrm.Threw? && !googleKey ==> r == None && calls == [FromOsrm])
            && (fromOsrm.Threw? && googleKey ==>
                  && calls == [FromOsrm, FromGoogleMatrix]
                  && var fromGoogle := GoogleMatrixOutcome(google(GoogleMatrixRequest(origins, destinations, "driving", "do")));
                     r == if fromGoogle.Value? then fromGoogle.value else None)
    ensures r.Some? ==> r.value.source == calls[|calls| - 1]
    ensures r.Some? && r.value.source == FromGoogleMatrix ==>
              var resp := google(GoogleMatrixRequest(origins, destinations, "driving", "do"));
              && resp.Value? && resp.value.status == Some("OK") && resp.value.rows.Some?
              && |r.value.distances| == |resp.value.rows.value|
  {
    var fromOsrm, request := OsrmMatrix(origins, destinations, osrm);
    if fromOsrm.Value? {
      return fromOsrm.value, [FromOsrm];
    }
    if !googleKey {
      return None, [FromOsrm];
    }
    var fromGoogle := GoogleMatrix(origins, destinations, google);
    calls := [FromOsrm, FromGoogleMatrix];
    r := if fromGoogle.Value? then fromGoogle.value else None;
  }
}
