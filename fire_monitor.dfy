/** The active-fire detector: FIRMS confidence and brightness temperature are
    max-composited over the scan window, thresholded with a two-tier test, cleared
    of built-up land, counted, and turned into at most fifty fire clusters with a
    severity class. The remote rasters are supplied as a scene; the per-pixel
    decisions, the count, the cluster list, the render plan and the assembled
    result are modelled exactly. */
module FireMonitor {
  import opened Wrappers
  import opened Seqs
  import opened EarthEngine

  const DefaultDaysBack: int := 5
  const DefaultBuffer: int := 5000
  /** WorldCover class 50 is built-up land. */
  const BuiltUpClass: int := 50
  const MaxClusters: nat := 50
  const KelvinOffset: real := 273.15
  const ScanCompleteMessage: string := "Fire scan complete"

  // ---------------------------------------------------------------- pixels

  /** One FIRMS image: per-pixel detection confidence and T21 brightness
      temperature in kelvin; a masked pixel has no value. */
  datatype FireImage = FireImage(time: Instant, confidence: seq<Option<real>>, brightness: seq<Option<real>>)

  /** The value of pixel `p` in one band, absent outside the band. */
  function Sample(band: seq<Option<real>>, p: nat): Option<real> {
    if p < |band| then band[p] else None
  }

  /** Temporal maximum composite of one pixel: absent when no image has a value there. */
  function MaxComposite(obs: seq<Option<real>>): (m: Option<real>)
    ensures m.None? <==> forall k :: 0 <= k < |obs| ==> obs[k].None?
    ensures m.Some? ==> exists k :: 0 <= k < |obs| && obs[k] == m
    ensures m.Some? ==> forall k :: 0 <= k < |obs| && obs[k].Some? ==> obs[k].value <= m.value
  {
    if obs == [] then None
    else
      var rest := MaxComposite(obs[1..]);
      match obs[0]
      case None => rest
      case Some(v) =>
        if rest.Some? && rest.value > v then rest else Some(v)
  }

  /** `unmask(0)`: a pixel without a value reads as zero. */
  function Unmask(m: Option<real>): real {
    m.GetOr(0.0)
  }

  function ConfidenceSeries(images: seq<FireImage>, p: nat): seq<Option<real>> {
    seq(|images|, k requires 0 <= k < |images| => Sample(images[k].confidence, p))
  }

  function BrightnessSeries(images: seq<FireImage>, p: nat): seq<Option<real>> {
    seq(|images|, k requires 0 <= k < |images| => Sample(images[k].brightness, p))
  }

  function PeakConfidence(images: seq<FireImage>, p: nat): real {
    Unmask(MaxComposite(ConfidenceSeries(images, p)))
  }

  function PeakBrightness(images: seq<FireImage>, p: nat): real {
    Unmask(MaxComposite(BrightnessSeries(images, p)))
  }

  /** The two-tier fire test: high confidence alone, or medium confidence
      corroborated by a brightness temperature above 330 K. */
  predicate FireCandidate(confidence: real, tempK: real) {
    confidence > 90.0 || (confidence > 40.0 && tempK > 330.0)
  }

  /** A pixel of the region survives the fire test and is not built-up land. */
  predicate IsFirePixel(images: seq<FireImage>, landCover: seq<int>, p: nat) {
    && p < |landCover|
    && FireCandidate(PeakConfidence(images, p), PeakBrightness(images, p))
    && landCover[p] != BuiltUpClass
  }

  /** The pixels of the region that count as fire, in raster order. */
  function FirePixels(images: seq<FireImage>, landCover: seq<int>): seq<nat> {
    Filter(Pixels(|landCover|), (p: nat) => IsFirePixel(images, landCover, p))
  }

  /** The maximum composite exceeds a non-negative threshold exactly when some
      observation in the window does. */
  lemma {:induction false} PeakAbove(obs: seq<Option<real>>, c: real)
    requires c >= 0.0
    ensures Unmask(MaxComposite(obs)) > c <==> exists k :: 0 <= k < |obs| && obs[k].Some? && obs[k].value > c
  {
    var m := MaxComposite(obs);
    if m.Some? {
      var k :| 0 <= k < |obs| && obs[k] == m;
      assert obs[k].Some? && obs[k].value == m.value;
    }
  }

  /** A pixel counts as fire exactly when it is not built-up land and, within the
      window, some image reported confidence above 90, or some image reported
      confidence above 40 and some image a brightness temperature above 330 K.
      Missing observations read as zero and therefore never qualify. */
  lemma FirePixelIffObserved(images: seq<FireImage>, landCover: seq<int>, p: nat)
    requires p < |landCover|
    ensures IsFirePixel(images, landCover, p) <==>
      && landCover[p] != BuiltUpClass
      && ((exists k :: 0 <= k < |images| && Sample(images[k].confidence, p).Some? && Sample(images[k].confidence, p).value > 90.0)
          || ((exists k :: 0 <= k < |images| && Sample(images[k].confidence, p).Some? && Sample(images[k].confidence, p).value > 40.0)
              && (exists k :: 0 <= k < |images| && Sample(images[k].brightness, p).Some? && Sample(images[k].brightness, p).value > 330.0)))
  {
    var cs := ConfidenceSeries(images, p);
    var bs := BrightnessSeries(images, p);
    PeakAbove(cs, 90.0);
    PeakAbove(cs, 40.0);
    PeakAbove(bs, 330.0);
    assert forall k :: 0 <= k < |images| ==> cs[k] == Sample(images[k].confidence, p);
    assert forall k :: 0 <= k < |images| ==> bs[k] == Sample(images[k].brightness, p);
  }

  // ---------------------------------------------------------------- severity and clusters

  datatype Intensity = Smoldering | Moderate | Severe

  /** Severe above 350 K, Smoldering below 330 K, Moderate in between; both
      boundaries are Moderate. */
  function Severity(tempK: real): (i: Intensity)
    ensures i == Severe <==> tempK > 350.0
    ensures i == Smoldering <==> tempK < 330.0
    ensures i == Moderate <==> 330.0 <= tempK <= 350.0
  {
    if tempK > 350.0 then Severe
    else if tempK < 330.0 then Smoldering
    else Moderate
  }

  /** One vectorised cluster: its `max` property (peak kelvin, possibly missing)
      and its centroid coordinates `[x, y]`, that is `[lng, lat]`. */
  datatype Cluster = Cluster(peak: Option<real>, centroid: (real, real))

  datatype FireObservation = FireObservation(tempC: real, intensity: Intensity, lat: real, lng: real)

  /** A cluster as reported: a missing peak is taken as 0 K. */
  function Observe(c: Cluster, round: Rounder): FireObservation {
    var tempK := c.peak.GetOr(0.0);
    FireObservation(round(tempK - KelvinOffset, 1), Severity(tempK), c.centroid.1, c.centroid.0)
  }

  function Min(a: nat, b: nat): nat { if a <= b then a else b }

  /** `fires` reports the first (at most fifty) clusters, in the service's order. */
  ghost predicate IsFireList(fires: seq<FireObservation>, clusters: seq<Cluster>, round: Rounder) {
    && |fires| == Min(|clusters|, MaxClusters)
    && forall k :: 0 <= k < |fires| ==> fires[k] == Observe(clusters[k], round)
  }

  /** The `for feat in features[:50]` loop that builds the fire list. */
  method BuildFireList(clusters: seq<Cluster>, round: Rounder) returns (fires: seq<FireObservation>)
    ensures IsFireList(fires, clusters, round)
    ensures |fires| <= MaxClusters
    ensures forall k :: 0 <= k < |fires| ==>
      && fires[k].lat == clusters[k].centroid.1
      && fires[k].lng == clusters[k].centroid.0
      && fires[k].intensity == Severity(clusters[k].peak.GetOr(0.0))
  {
    var capped := if |clusters| <= MaxClusters then clusters else clusters[..MaxClusters];
    fires := [];
    var i := 0;
    while i < |capped|
      invariant 0 <= i <= |capped|
      invariant |fires| == i
      invariant forall k :: 0 <= k < i ==> fires[k] == Observe(capped[k], round)
    {
      fires := fires + [Observe(capped[i], round)];
      i := i + 1;
    }
  }

  // ---------------------------------------------------------------- windows and rendering

  /** The scan window `[now - daysBack days, now]`. */
  function ScanWindow(now: Instant, daysBack: int): Window {
    Window(AdvanceDays(now, -daysBack), now)
  }

  /** Both ends of the scan window moved back one calendar year. */
  function BaselineWindow(recent: Window, yearBack: YearBack): Window {
    Window(yearBack(recent.start), yearBack(recent.end))
  }

  /** The window of the current-temperature render shown when there is no fire. */
  function ContextWindow(recent: Window): Window {
    Window(AdvanceDays(recent.start, -10), recent.end)
  }

  lemma WindowPlan(now: Instant, daysBack: int, yearBack: YearBack)
    requires daysBack >= 0
    ensures var w := ScanWindow(now, daysBack);
      && w.end == now && w.end - w.start == daysBack * DayMs
      && BaselineWindow(w, yearBack) == Window(yearBack(w.start), yearBack(now))
      && ContextWindow(w).start == w.start - 10 * DayMs && ContextWindow(w).end == now
      && ContextWindow(w).start <= w.start <= w.end
  {
  }

  const VisFire: map<string, Value> :=
    map["min" := Int(330), "max" := Int(400), "palette" := Colors(["500000", "ff0000", "ff8000", "ffff00", "ffffff"])]

  const VisSafe: map<string, Value> :=
    map["min" := Int(280), "max" := Int(325), "palette" := Colors(["000000", "000040", "0000ff", "0080ff", "00ffff", "ffffff"])]

  /** The thumbnail parameters of `get_image_url`: every rendering key is always
      present, a missing `min`, `max` or `palette` being replaced by 0, 1 and
      black-to-white. */
  function ThumbParams(vis: map<string, Value>, region: Region): (params: map<string, Value>)
    ensures HasFixedKeys(params, region)
    ensures params.Keys == {"min", "max", "palette", "dimensions", "region", "format"}
    ensures params["min"] == (if "min" in vis then vis["min"] else Int(0))
    ensures params["max"] == (if "max" in vis then vis["max"] else Int(1))
    ensures params["palette"] == (if "palette" in vis then vis["palette"] else Colors(["black", "white"]))
  {
    map[
      "min" := (if "min" in vis then vis["min"] else Int(0)),
      "max" := (if "max" in vis then vis["max"] else Int(1)),
      "palette" := (if "palette" in vis then vis["palette"] else Colors(["black", "white"])),
      "dimensions" := Int(512),
      "region" := Area(region),
      "format" := Text("png")]
  }

  /** `get_image_url`: the URL, or null when the service raises. */
  function ImageUrl(thumbs: ThumbService, layer: Layer, region: Region, vis: map<string, Value>): Option<string> {
    UrlOf(thumbs(ThumbRequest(layer, ThumbParams(vis, region))))
  }

  // ---------------------------------------------------------------- detection

  /** Where a backend exception is raised: while scanning (always reached) or
      while vectorising clusters (reached only when some pixel survives). */
  datatype FireStage = Scanning | Vectorizing

  datatype Fault = Fault(stage: FireStage, message: string)

  /** What the raster service holds and answers for one invocation. */
  datatype FireScene = FireScene(
    images: seq<FireImage>,     // FIRMS images over the region, before the date filter
    landCover: seq<int>,        // WorldCover class of each pixel; its length is the region's pixel count
    clusters: seq<Cluster>,     // the vectorised clusters, in the service's order
    countReply: Option<nat>,    // the count reducer's answer for band T21, possibly null
    thumbs: ThumbService,
    fault: Option<Fault>)

  /** `filterDate(start, end)`. */
  function InWindow(images: seq<FireImage>, w: Window): seq<FireImage> {
    Filter(images, (img: FireImage) => w.Holds(img.time))
  }

  /** `stats.get('T21').getInfo() or 0`: a null reply reads as zero. */
  function PixelCount(scene: FireScene): (n: nat)
    ensures scene.countReply.None? ==> n == 0
    ensures scene.countReply.Some? ==> n == scene.countReply.value
  {
    scene.countReply.GetOr(0)
  }

  /** The count reducer agrees with the pixel model for window `w`: its reply,
      null read as zero, is the number of fire pixels of the region. */
  predicate FaithfulCount(scene: FireScene, w: Window) {
    scene.countReply.GetOr(0) == |FirePixels(InWindow(scene.images, w), scene.landCover)|
  }

  /** With no image in the window every composite is empty, so no pixel survives:
      a faithful count for such a window is zero. */
  lemma FiresNeedImages(landCover: seq<int>)
    ensures FirePixels([], landCover) == []
  {
    var none: seq<FireImage> := [];
    var all := Pixels(|landCover|);
    forall k | 0 <= k < |all|
      ensures !IsFirePixel(none, landCover, all[k])
    {
      assert ConfidenceSeries(none, all[k]) == [];
    }
    FilterIsEmpty(all, (p: nat) => IsFirePixel(none, landCover, p));
  }

  /** With a faithful count, the alert fires exactly when some pixel of the
      region survives the fire test. */
  lemma {:induction false} AlertIffFirePixel(scene: FireScene, w: Window)
    requires FaithfulCount(scene, w)
    ensures PixelCount(scene) > 0 <==>
      exists p: nat :: p < |scene.landCover| && IsFirePixel(InWindow(scene.images, w), scene.landCover, p)
  {
    var found := InWindow(scene.images, w);
    var fp := FirePixels(found, scene.landCover);
    var all := Pixels(|scene.landCover|);
    if fp != [] {
      assert fp[0] in fp;
    }
    if p: nat :| p < |scene.landCover| && IsFirePixel(found, scene.landCover, p) {
      assert all[p] == p;
      assert p in fp;
    }
  }

  /** Whether the scene's fault is reached for this pixel count. */
  predicate FaultRaised(fault: Option<Fault>, pixelCount: nat) {
    fault.Some? && (fault.value.stage == Scanning || pixelCount > 0)
  }

  datatype FireResult =
    | FireScan(message: string, alertTriggered: bool, activeFireCount: nat, fires: seq<FireObservation>,
               startImageUrl: Option<string>, endImageUrl: Option<string>, dates: Window)
    | FireError(message: string, dates: Window)
  {
    function Status(): string { if FireScan? then "success" else "error" }
    function Alert(): bool { FireScan? && alertTriggered }
  }

  /** What `detect_active_fires` answers for a scene: a reached fault gives the
      error record, otherwise the scan with the pixel count, the fire list when
      there are fires, and the render URLs of the branch taken. */
  ghost predicate FireOutcome(scene: FireScene, region: Region, now: Instant, daysBack: int,
                              yearBack: YearBack, round: Rounder, r: FireResult)
  {
    var w := ScanWindow(now, daysBack);
    var n := PixelCount(scene);
    && r.dates == w
    && (r.FireError? <==> FaultRaised(scene.fault, n))
    && (r.FireError? ==> r.message == scene.fault.value.message && !r.Alert())
    && (r.FireScan? ==>
          && r.message == ScanCompleteMessage
          && r.alertTriggered == (n > 0)
          && r.activeFireCount == n
          && (n == 0 ==> r.fires == [])
          && (n > 0 ==> IsFireList(r.fires, scene.clusters, round))
          && r.startImageUrl == ImageUrl(scene.thumbs, MeanSurfaceTemp(BaselineWindow(w, yearBack)), region, VisSafe)
          && r.endImageUrl == (if n > 0 then ImageUrl(scene.thumbs, MaskedFire, region, VisFire)
                               else ImageUrl(scene.thumbs, MeanSurfaceTemp(ContextWindow(w)), region, VisSafe)))
  }

  /** `detect_active_fires`. */
  method DetectActiveFires(scene: FireScene, region: Region, now: Instant, daysBack: int,
                           yearBack: YearBack, round: Rounder) returns (r: FireResult)
    ensures FireOutcome(scene, region, now, daysBack, yearBack, round, r)
  {
    var dates := ScanWindow(now, daysBack);
    if scene.fault.Some? && scene.fault.value.stage == Scanning {
      return FireError(scene.fault.value.message, dates);
    }
    var pixelCount := PixelCount(scene);
    var startUrl := ImageUrl(scene.thumbs, MeanSurfaceTemp(BaselineWindow(dates, yearBack)), region, VisSafe);
    var endUrl: Option<string>;
    if pixelCount > 0 {
      endUrl := ImageUrl(scene.thumbs, MaskedFire, region, VisFire);
    } else {
      endUrl := ImageUrl(scene.thumbs, MeanSurfaceTemp(ContextWindow(dates)), region, VisSafe);
    }
    var fires: seq<FireObservation> := [];
    if pixelCount > 0 {
      if scene.fault.Some? {
        return FireError(scene.fault.value.message, dates);
      }
      fires := BuildFireList(scene.clusters, round);
    }
    r := FireScan(ScanCompleteMessage, pixelCount > 0, pixelCount, fires, startUrl, endUrl, dates);
  }

  // ---------------------------------------------------------------- entry point

  /** The JSON read from standard input; absent keys are `None`. */
  datatype FireInput = FireInput(
    previousDays: Option<int>,
    bufferMeters: Option<int>,
    regionGeoJson: Option<GeoJson>,
    geometry: Option<GeoJson>,
    regionId: Option<string>)

  datatype FireOutput =
    | Emitted(result: FireResult, regionId: Option<string>)   // the detector's record with `region_id` (null when not given)
    | AuthFailed                                              // `{"status": "error", "message": "GEE Auth Failed"}`
    | Fatal(message: string)                                  // an error record with `region_id` "unknown"
  {
    function ExitCode(): int { if Emitted? then 0 else 1 }
  }

  const MissingCredentials: string := "Missing credentials"
  const NoGeometry: string := "'NoneType' object has no attribute 'get'"

  /** The script's main block: argument check, input defaults, authentication,
      geometry dispatch, detection and `region_id` attachment. */
  method RunFireMonitor(hasCredentialsArg: bool, input: FireInput, authOk: bool, scene: FireScene,
                        now: Instant, yearBack: YearBack, round: Rounder) returns (out: FireOutput)
    ensures out.ExitCode() == 0 <==> out.Emitted?
    ensures !hasCredentialsArg ==> out == Fatal(MissingCredentials)
    ensures hasCredentialsArg && !authOk ==> out == AuthFailed
    ensures var geo := if input.regionGeoJson.Some? then input.regionGeoJson else input.geometry;
      && (hasCredentialsArg && authOk && geo.None? ==> out == Fatal(NoGeometry))
      && (hasCredentialsArg && authOk && geo.Some?
          && ResolveRegion(geo.value, input.bufferMeters.GetOr(DefaultBuffer)).None?
          ==> out == Fatal("Unknown Geometry: " + KindText(geo.value.kind)))
      && (out.Emitted? <==>
            (hasCredentialsArg && authOk && geo.Some?
             && ResolveRegion(geo.value, input.bufferMeters.GetOr(DefaultBuffer)).Some?))
    ensures out.Emitted? ==>
      var geo := if input.regionGeoJson.Some? then input.regionGeoJson else input.geometry;
      && out.regionId == input.regionId
      && out.result.dates == ScanWindow(now, input.previousDays.GetOr(DefaultDaysBack))
      && FireOutcome(scene, ResolveRegion(geo.value, input.bufferMeters.GetOr(DefaultBuffer)).value,
                     now, input.previousDays.GetOr(DefaultDaysBack), yearBack, round, out.result)
  {
    if !hasCredentialsArg {
      return Fatal(MissingCredentials);
    }
    var days := input.previousDays.GetOr(DefaultDaysBack);
    var buffer := input.bufferMeters.GetOr(DefaultBuffer);
    var geo := if input.regionGeoJson.Some? then input.regionGeoJson else input.geometry;
    if !authOk {
      return AuthFailed;
    }
    if geo.None? {
      return Fatal(NoGeometry);
    }
    var region := ResolveRegion(geo.value, buffer);
    if region.None? {
      return Fatal("Unknown Geometry: " + KindText(geo.value.kind));
    }
    var result := DetectActiveFires(scene, region.value, now, days, yearBack, round);
    out := Emitted(result, input.regionId);
  }
}
