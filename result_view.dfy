/** The geometry of the result map: longitude normalisation, the two-point
    polyline between guess and answer, and the distance tiers that bound the
    zoom and padding of the fitted view. */
module ResultView {
  import opened Geo

  // ---------------------------------------------------------------------
  // Longitude normalisation
  // ---------------------------------------------------------------------

  /** Rounding toward zero, the quotient JavaScript's `%` implicitly uses. */
  function Trunc(x: real): (n: int)
    ensures 0.0 <= x ==> 0 <= n && n as real <= x < n as real + 1.0
    ensures x < 0.0 ==> n <= 0 && n as real - 1.0 < x <= n as real
  {
    if 0.0 <= x then x.Floor else -((-x).Floor)
  }

  /** JavaScript's `x % 360` on numbers: the remainder keeps the sign of `x`. */
  function Rem360(x: real): (r: real)
    ensures 0.0 <= x ==> 0.0 <= r < 360.0
    ensures x < 0.0 ==> -360.0 < r <= 0.0
    ensures SameMeridian(r, x)
  {
    var t := Trunc(x / 360.0);
    assert (x - 360.0 * t as real - x) / 360.0 == -t as real;
    x - 360.0 * t as real
  }

  /** Two longitudes name the same meridian: they differ by a whole number
      of turns. */
  predicate SameMeridian(a: real, b: real) {
    ((a - b) / 360.0).Floor as real == (a - b) / 360.0
  }

  /** The half-open range every normalised longitude lies in. */
  predicate InRange(lng: real) {
    -180.0 <= lng < 180.0
  }

  /** `normalizeLng`: shift a longitude by whole turns into [-180, 180). The
      comment above it in the source promises [-180, 180], but 180 itself
      comes out as -180 (see `NormalizeLng180`). */
  function NormalizeLng(lng: real): (r: real)
    ensures InRange(r)
    ensures SameMeridian(r, lng)
  {
    var normalized := Rem360(lng + 180.0) - 180.0;
    SameMeridianShift(normalized + 180.0, lng + 180.0, 180.0);
    if normalized < -180.0 then
      SameMeridianTurn(normalized, lng);
      normalized + 360.0
    else
      normalized
  }

  lemma SameMeridianShift(a: real, b: real, c: real)
    requires SameMeridian(a, b)
    ensures SameMeridian(a - c, b - c)
  {
    assert (a - c) - (b - c) == a - b;
  }

  lemma SameMeridianTurn(a: real, b: real)
    requires SameMeridian(a, b)
    ensures SameMeridian(a + 360.0, b)
  {
    var q := (a - b) / 360.0;
    assert (a + 360.0 - b) / 360.0 == q + 1.0;
    assert (q + 1.0).Floor == q.Floor + 1;
  }

  lemma SameMeridianSymmetric(a: real, b: real)
    requires SameMeridian(a, b)
    ensures SameMeridian(b, a)
  {
    var q := (a - b) / 360.0;
    assert (b - a) / 360.0 == -q;
    assert (-q).Floor == -(q.Floor);
  }

  lemma SameMeridianTransitive(a: real, b: real, c: real)
    requires SameMeridian(a, b) && SameMeridian(b, c)
    ensures SameMeridian(a, c)
  {
    var p, q := (a - b) / 360.0, (b - c) / 360.0;
    assert (a - c) / 360.0 == p + q;
    assert (p + q).Floor == p.Floor + q.Floor;
  }

  /** Two normalised longitudes on the same meridian are equal: there is
      exactly one representative of each meridian in [-180, 180). */
  lemma InRangeUnique(a: real, b: real)
    requires InRange(a) && InRange(b) && SameMeridian(a, b)
    ensures a == b
  {
  }

  /** A longitude already in range is left alone. */
  lemma NormalizeLngFixesInRange(lng: real)
    requires InRange(lng)
    ensures NormalizeLng(lng) == lng
  {
  }

  /** `normalizeLng` is idempotent. */
  lemma NormalizeLngIdempotent(lng: real)
    ensures NormalizeLng(NormalizeLng(lng)) == NormalizeLng(lng)
  {
  }

  /** Reference definition: the normalised longitude is THE value in
      [-180, 180) on the same meridian as the input, in both directions. */
  lemma NormalizeLngCharacterised(lng: real, r: real)
    ensures NormalizeLng(lng) == r <==> InRange(r) && SameMeridian(r, lng)
  {
    if InRange(r) && SameMeridian(r, lng) {
      var n := NormalizeLng(lng);
      SameMeridianSymmetric(r, lng);
      SameMeridianTransitive(n, lng, r);
      InRangeUnique(n, r);
    }
  }

  /** Longitudes a whole turn apart normalise alike. */
  lemma NormalizeLngPeriodic(lng: real)
    ensures NormalizeLng(lng + 360.0) == NormalizeLng(lng)
  {
    var n := NormalizeLng(lng);
    assert SameMeridian(lng, lng + 360.0) by {
      assert (lng - (lng + 360.0)) / 360.0 == -1.0;
    }
    SameMeridianTransitive(n, lng, lng + 360.0);
    NormalizeLngCharacterised(lng + 360.0, n);
  }

  /** The right edge of the documented range is not reached: 180 wraps to -180. */
  lemma NormalizeLng180()
    ensures NormalizeLng(180.0) == -180.0
  {
  }

  // ---------------------------------------------------------------------
  // The guess-to-answer polyline
  // ---------------------------------------------------------------------

  function Abs(x: real): (a: real)
    ensures 0.0 <= a && (a == x || a == -x)
  {
    if x < 0.0 then -x else x
  }

  /** A point with its longitude normalised, as the result markers are drawn. */
  function Normalized(p: LatLng): (q: LatLng)
    ensures q.lat == p.lat && InRange(q.lng) && SameMeridian(q.lng, p.lng)
  {
    LatLng(p.lat, NormalizeLng(p.lng))
  }

  /** `getShortestPath`: the two endpoints of the polyline from the guess to
      the answer. Its "more than 180 degrees apart" branch keeps the second
      longitude as it is, so the line may take the long way round rather
      than cross the antimeridian. */
  function ShortestPath(point1: LatLng, point2: LatLng): (path: seq<LatLng>)
    ensures |path| == 2
    ensures path[0].lat == point1.lat && path[1].lat == point2.lat
    ensures InRange(path[0].lng) && InRange(path[1].lng)
    ensures SameMeridian(path[0].lng, point1.lng) && SameMeridian(path[1].lng, point2.lng)
  {
    var lng1 := NormalizeLng(point1.lng);
    var lng2 := NormalizeLng(point2.lng);
    var directDiff := lng2 - lng1;
    var finalLng2 := if Abs(directDiff) > 180.0 then lng2 else lng2;
    [LatLng(point1.lat, lng1), LatLng(point2.lat, finalLng2)]
  }

  /** The far-apart branch changes nothing: the polyline joins exactly the
      two marker positions, so it never leaves the [-180, 180) strip and its
      longitude span is under one turn. */
  lemma ShortestPathJoinsMarkers(point1: LatLng, point2: LatLng)
    ensures ShortestPath(point1, point2) == [Normalized(point1), Normalized(point2)]
    ensures Abs(ShortestPath(point1, point2)[1].lng - ShortestPath(point1, point2)[0].lng) < 360.0
  {
  }

  /** Recomputing the path from its own endpoints gives the same path. */
  lemma ShortestPathIdempotent(point1: LatLng, point2: LatLng)
    ensures var path := ShortestPath(point1, point2);
            ShortestPath(path[0], path[1]) == path
  {
  }

  /** The path is drawn the long way: points on either side of the
      antimeridian are joined across the whole map, 340 degrees apart. */
  lemma ShortestPathLongWay()
    ensures ShortestPath(LatLng(0.0, 170.0), LatLng(0.0, -170.0))
            == [LatLng(0.0, 170.0), LatLng(0.0, -170.0)]
  {
  }

  // ---------------------------------------------------------------------
  // Fitting the result view
  // ---------------------------------------------------------------------

  /** The view limits chosen for a distance: the highest zoom `fitBounds`
      may use and the fraction the bounds are padded by. */
  datatype Fit = Fit(maxZoom: int, padding: real)

  /** The `if`/`else` chain choosing zoom ceiling and padding from the
      distance in kilometres between guess and answer. */
  function ViewFit(distance: real): (f: Fit)
    ensures 4 <= f.maxZoom <= 16 && 0.2 <= f.padding <= 1.5
  {
    if distance < 1.0 then Fit(16, 1.5)
    else if distance < 10.0 then Fit(14, 1.0)
    else if distance < 100.0 then Fit(11, 0.8)
    else if distance < 1000.0 then Fit(8, 0.5)
    else if distance < 5000.0 then Fit(6, 0.3)
    else Fit(4, 0.2)
  }

  /** The tier table as data: the lower bound of every tier after the first,
      and each tier's limits. */
  const TierBounds: seq<real> := [1.0, 10.0, 100.0, 1000.0, 5000.0]
  const TierFits: seq<Fit> := [Fit(16, 1.5), Fit(14, 1.0), Fit(11, 0.8), Fit(8, 0.5), Fit(6, 0.3), Fit(4, 0.2)]

  /** How many of the ascending `bounds` the distance has reached. */
  function BoundsReached(bounds: seq<real>, distance: real): (n: nat)
    ensures n <= |bounds|
  {
    if bounds == [] || distance < bounds[0] then 0
    else 1 + BoundsReached(bounds[1..], distance)
  }

  /** Reference definition: the chain picks the row of the table indexed by
      the number of tier bounds reached, so every boundary value falls into
      the higher tier. */
  lemma ViewFitIsTable(distance: real)
    ensures ViewFit(distance) == TierFits[BoundsReached(TierBounds, distance)]
  {
    var b0 := TierBounds;
    var b1, b2, b3, b4 := b0[1..], b0[2..], b0[3..], b0[4..];
    assert b1 == [10.0, 100.0, 1000.0, 5000.0] && b2 == b1[1..] && b3 == b2[1..] && b4 == b3[1..];
    assert b4[1..] == [];
    assert BoundsReached(b4, distance) == if distance < 5000.0 then 0 else 1;
    assert BoundsReached(b3, distance) == if distance < 1000.0 then 0 else 1 + BoundsReached(b4, distance);
    assert BoundsReached(b2, distance) == if distance < 100.0 then 0 else 1 + BoundsReached(b3, distance);
    assert BoundsReached(b1, distance) == if distance < 10.0 then 0 else 1 + BoundsReached(b2, distance);
  }

  /** A farther pair of points never gets a higher zoom ceiling or a larger
      padding. */
  lemma ViewFitMonotone(d1: real, d2: real)
    requires d1 <= d2
    ensures ViewFit(d2).maxZoom <= ViewFit(d1).maxZoom
    ensures ViewFit(d2).padding <= ViewFit(d1).padding
  {
  }

  /** Each tier boundary belongs to the higher tier. */
  lemma ViewFitBoundaries()
    ensures ViewFit(1.0) == Fit(14, 1.0)
    ensures ViewFit(10.0) == Fit(11, 0.8)
    ensures ViewFit(100.0) == Fit(8, 0.5)
    ensures ViewFit(1000.0) == Fit(6, 0.3)
    ensures ViewFit(5000.0) == Fit(4, 0.2)
  {
  }

  /** The two ends of the table: a guess half a kilometre off is shown at
      up to zoom 16 with 150% padding, one 6000 km off at up to zoom 4 with
      20% padding. */
  lemma ViewFitExtremes()
    ensures ViewFit(0.5) == Fit(16, 1.5)
    ensures ViewFit(6000.0) == Fit(4, 0.2)
  {
  }

  /** The zoom of the fallback view taken when `fitBounds` throws:
      `Math.min(maxZoom, 3)`, which every tier's ceiling exceeds. */
  function FallbackZoom(distance: real): (zoom: int)
    ensures zoom == 3
  {
    var maxZoom := ViewFit(distance).maxZoom;
    if maxZoom < 3 then maxZoom else 3
  }

}
