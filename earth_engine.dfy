/** The interface both hazard detectors share with the remote raster service:
    instants and scan windows, regions of interest built from GeoJSON, rendering
    requests and the service's replies. The service itself is not modelled; what
    it returns is supplied to the detectors as data or as function parameters. */
module EarthEngine {
  import opened Wrappers

  /** An instant, in milliseconds since the epoch (UTC), as `ee.Date` holds it. */
  type Instant = int

  const DayMs: int := 86_400_000

  /** `date.advance(days, 'day')`. */
  function AdvanceDays(t: Instant, days: int): (r: Instant)
    ensures days <= 0 ==> r <= t
    ensures r - t == days * DayMs
  {
    t + days * DayMs
  }

  /** `date.advance(-1, 'year')` is calendar arithmetic done by the service; the
      detectors receive it as a function of this type. */
  type YearBack = Instant -> Instant

  /** A date range; a collection filtered by it keeps `start <= t < end`. */
  datatype Window = Window(start: Instant, end: Instant) {
    predicate Holds(t: Instant) { start <= t < end }
  }

  /** Python's `round(x, digits)`, whose floating-point behaviour is outside the model. */
  type Rounder = (real, nat) -> real

  /** The GeoJSON coordinate array, passed through to the service unchanged. */
  type Coordinates = seq<real>

  /** A GeoJSON geometry as received: its `type` key may be missing. */
  datatype GeoJson = GeoJson(kind: Option<string>, coordinates: Coordinates)

  /** The region handle the service builds from a geometry. */
  datatype Region =
    | BufferedPoint(center: Coordinates, radiusMeters: int)
    | PolygonRegion(rings: Coordinates)
    | MultiPolygonRegion(polygons: Coordinates)

  /** Geometry dispatch shared by both entry points: a `Point` is buffered by the
      radius, `Polygon` and `MultiPolygon` are used as they are, and any other
      type (or a missing one) has no region. */
  function ResolveRegion(g: GeoJson, bufferMeters: int): (r: Option<Region>)
    ensures r.Some? <==> g.kind in {Some("Point"), Some("Polygon"), Some("MultiPolygon")}
    ensures g.kind == Some("Point") ==> r == Some(BufferedPoint(g.coordinates, bufferMeters))
    ensures g.kind == Some("Polygon") ==> r == Some(PolygonRegion(g.coordinates))
    ensures g.kind == Some("MultiPolygon") ==> r == Some(MultiPolygonRegion(g.coordinates))
  {
    match g.kind
    case Some("Point") => Some(BufferedPoint(g.coordinates, bufferMeters))
    case Some("Polygon") => Some(PolygonRegion(g.coordinates))
    case Some("MultiPolygon") => Some(MultiPolygonRegion(g.coordinates))
    case _ => None
  }

  /** How Python formats the geometry type in an error message (`None` when missing). */
  function KindText(kind: Option<string>): string {
    match kind
    case Some(k) => k
    case None => "None"
  }

  /** A value in a rendering-parameter dictionary. */
  datatype Value = Int(i: int) | Text(s: string) | Colors(palette: seq<string>) | Area(region: Region)

  /** The raster a thumbnail is requested for. */
  datatype Layer =
    | MaskedFire                        // peak brightness temperature where a fire survives the masks
    | MeanSurfaceTemp(window: Window)   // mean daytime land-surface temperature, scaled by 0.02
    | MedianRadar(window: Window)       // median VV backscatter
    | FloodOverlay(window: Window)      // recent radar in grey with the flood mask blended on top

  datatype ThumbRequest = ThumbRequest(layer: Layer, params: map<string, Value>)

  /** `getThumbURL` either answers with a URL or raises. */
  datatype RenderReply = Url(url: string) | Raised(message: string)

  type ThumbService = ThumbRequest -> RenderReply

  /** A failed render degrades to a null URL instead of failing the analysis. */
  function UrlOf(reply: RenderReply): (u: Option<string>)
    ensures u.None? <==> reply.Raised?
    ensures reply.Url? ==> u == Some(reply.url)
  {
    match reply
    case Url(s) => Some(s)
    case Raised(_) => None
  }

  /** The keys every thumbnail request carries, whichever detector builds it. */
  predicate HasFixedKeys(params: map<string, Value>, region: Region) {
    && "dimensions" in params && params["dimensions"] == Int(512)
    && "region" in params && params["region"] == Area(region)
    && "format" in params && params["format"] == Text("png")
  }

  /** The pixel positions of a region of `n` pixels, in raster order. */
  function Pixels(n: nat): (r: seq<nat>)
    ensures |r| == n && forall k :: 0 <= k < n ==> r[k] == k
  {
    seq(n, k requires 0 <= k < n => k)
  }
}
