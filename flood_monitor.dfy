/** The flood detector: Sentinel-1 VV backscatter is smoothed and thresholded at
    -16 dB per image, majority-voted per window, differenced against a baseline
    window one year earlier, and reduced to flooded and total area, a flooded
    percentage and a strict-threshold alert. The remote collections and reducer
    replies are supplied as a scene. */
module FloodMonitor {
  import opened Wrappers
  import opened Seqs
  import opened Strings
  import opened EarthEngine

  const DefaultThresholdPercent: real := 5.0
  const DefaultRecentDays: int := 10
  const BaselineDurationDays: int := 30
  const WaterThresholdDb: real := -16.0
  const DefaultPointBuffer: int := 1000

  // ---------------------------------------------------------------- water and flood masks

  /** One Sentinel-1 image (IW mode, VV polarisation): backscatter in dB per
      pixel of the region, absent where the image does not cover the pixel. */
  datatype RadarImage = RadarImage(time: Instant, vv: seq<Option<real>>)

  /** The speckle filter (`focal_median(50, 'circle', 'meters')`), computed by the service. */
  type SpeckleFilter = seq<Option<real>> -> seq<Option<real>>

  /** `apply_water_threshold`: after smoothing, a covered pixel is water exactly
      when its backscatter is strictly below -16 dB. */
  function ApplyWaterThreshold(img: RadarImage, smooth: SpeckleFilter): (water: seq<Option<bool>>)
    ensures |water| == |smooth(img.vv)|
    ensures forall p :: 0 <= p < |water| ==>
      (water[p].Some? <==> smooth(img.vv)[p].Some?)
      && (water[p] == Some(true) <==> smooth(img.vv)[p].Some? && smooth(img.vv)[p].value < WaterThresholdDb)
  {
    var s := smooth(img.vv);
    seq(|s|, p requires 0 <= p < |s| => if s[p].Some? then Some(s[p].value < WaterThresholdDb) else None)
  }

  /** The water votes the images of one window cast for pixel `p` (uncovered images do not vote). */
  function Votes(images: seq<RadarImage>, smooth: SpeckleFilter, p: nat): (v: seq<bool>)
    ensures |v| <= |images|
    decreases |images|
  {
    if images == [] then []
    else
      var w := ApplyWaterThreshold(images[0], smooth);
      var rest := Votes(images[1..], smooth, p);
      if p < |w| && w[p].Some? then [w[p].value] + rest else rest
  }

  function Yes(b: bool): bool { b }

  /** `median().gt(0.5)` over 0/1 votes: the median exceeds one half exactly
      when more than half of the votes are water; no vote leaves the pixel masked. */
  function MajorityWater(votes: seq<bool>): (m: Option<bool>)
    ensures m.None? <==> votes == []
    ensures m == Some(true) <==> votes != [] && 2 * CountWhere(votes, Yes) > |votes|
  {
    if votes == [] then None else Some(2 * CountWhere(votes, Yes) > |votes|)
  }

  /** The votes as 0/1 values in ascending order: `zeros` zeros, then `ones` ones. */
  function SortedVotes(zeros: nat, ones: nat): (s: seq<real>)
    ensures |s| == zeros + ones
  {
    seq(zeros + ones, i requires 0 <= i < zeros + ones => if i < zeros then 0.0 else 1.0)
  }

  /** The median of a sorted sequence; with an even length, the mean of the two middle values. */
  function Median(s: seq<real>): real
    requires |s| > 0
  {
    if |s| % 2 == 1 then s[|s| / 2] else (s[|s| / 2 - 1] + s[|s| / 2]) / 2.0
  }

  /** The per-pixel median of the 0/1 water votes exceeds 0.5 exactly when
      water wins a strict majority, so `MajorityWater` is the thresholded median,
      including the even case where a tie gives a median of exactly 0.5. */
  lemma MedianIsMajority(votes: seq<bool>)
    requires votes != []
    ensures var ones := CountWhere(votes, Yes);
      Median(SortedVotes(|votes| - ones, ones)) > 0.5 <==> MajorityWater(votes) == Some(true)
  {
  }

  function WindowWater(images: seq<RadarImage>, smooth: SpeckleFilter, p: nat): Option<bool> {
    MajorityWater(Votes(images, smooth, p))
  }

  /** `recent.subtract(baseline).gt(0).selfMask()`: water now, dry in the
      baseline, and observed in both windows. */
  predicate IsFloodPixel(recent: seq<RadarImage>, baseline: seq<RadarImage>, smooth: SpeckleFilter, p: nat) {
    WindowWater(recent, smooth, p) == Some(true) && WindowWater(baseline, smooth, p) == Some(false)
  }

  function FloodPixels(recent: seq<RadarImage>, baseline: seq<RadarImage>, smooth: SpeckleFilter, n: nat): seq<nat> {
    Filter(Pixels(n), (p: nat) => IsFloodPixel(recent, baseline, smooth, p))
  }

  /** The summed area (km²) of the listed pixels. */
  function SumArea(area: seq<real>, ps: seq<nat>): real {
    if ps == [] then 0.0
    else (if ps[0] < |area| then area[ps[0]] else 0.0) + SumArea(area, ps[1..])
  }

  predicate NonNegative(area: seq<real>) {
    forall p :: 0 <= p < |area| ==> area[p] >= 0.0
  }

  lemma {:induction false} SumAreaNonNegative(area: seq<real>, ps: seq<nat>)
    requires NonNegative(area)
    ensures SumArea(area, ps) >= 0.0
  {
    if ps != [] {
      SumAreaNonNegative(area, ps[1..]);
    }
  }

  /** Dropping pixels never increases the summed area. */
  lemma {:induction false} FilteredAreaAtMostTotal(area: seq<real>, ps: seq<nat>, keep: nat -> bool)
    requires NonNegative(area)
    ensures 0.0 <= SumArea(area, Filter(ps, keep)) <= SumArea(area, ps)
  {
    if ps != [] {
      FilteredAreaAtMostTotal(area, ps[1..], keep);
      if keep(ps[0]) {
        assert Filter(ps, keep) == [ps[0]] + Filter(ps[1..], keep);
        assert ([ps[0]] + Filter(ps[1..], keep))[1..] == Filter(ps[1..], keep);
      }
    } else {
      SumAreaNonNegative(area, ps);
    }
  }

  // ---------------------------------------------------------------- statistics

  /** Flooded share of the region in percent, zero when the region has no area. */
  function Percentage(flooded: real, total: real): real {
    if total > 0.0 then flooded / total * 100.0 else 0.0
  }

  lemma PercentageBounds(flooded: real, total: real)
    requires 0.0 <= flooded <= total
    ensures 0.0 <= Percentage(flooded, total) <= 100.0
    ensures total > 0.0 ==> Percentage(flooded, total) * total == flooded * 100.0
  {
    if total > 0.0 {
      var q := flooded / total;
      assert q * total == flooded;
      assert q <= 1.0;
    }
  }

  /** The alert is strict: a percentage equal to the threshold does not alert. */
  predicate Alerts(flooded: real, total: real, thresholdPercent: real) {
    Percentage(flooded, total) > thresholdPercent
  }

  // ---------------------------------------------------------------- windows and rendering

  /** `[now - recentDays days, now]`. */
  function RecentWindow(now: Instant, recentDays: int): Window {
    Window(AdvanceDays(now, -recentDays), now)
  }

  /** Thirty days ending one calendar year before now. */
  function BaselineWindow(now: Instant, yearBack: YearBack): Window {
    Window(AdvanceDays(yearBack(now), -BaselineDurationDays), yearBack(now))
  }

  lemma WindowPlan(now: Instant, recentDays: int, yearBack: YearBack)
    requires recentDays >= 0
    ensures var w := RecentWindow(now, recentDays);
      && w.end == now && w.end - w.start == recentDays * DayMs
    ensures var b := BaselineWindow(now, yearBack);
      && b.end == yearBack(now) && b.end - b.start == 30 * DayMs
  {
  }

  const RenderingKeys: set<string> := {"min", "max", "palette"}

  /** The parameters every flood thumbnail carries. */
  function FixedParams(region: Region): map<string, Value> {
    map["dimensions" := Int(512), "region" := Area(region), "format" := Text("png")]
  }

  /** The fixed parameters plus those of `keys` that the caller gave. */
  function ParamsWith(vis: map<string, Value>, region: Region, keys: set<string>): map<string, Value> {
    FixedParams(region) + map k | k in vis.Keys * keys :: vis[k]
  }

  /** The thumbnail parameters of `get_flood_image_url`: the fixed keys, plus
      `min`, `max` and `palette` exactly when the caller gave them, copied
      unchanged. */
  function RenderParams(vis: map<string, Value>, region: Region): (params: map<string, Value>)
    ensures HasFixedKeys(params, region)
    ensures params.Keys == {"dimensions", "region", "format"} + (vis.Keys * RenderingKeys)
    ensures forall k :: k in vis && k in RenderingKeys ==> params[k] == vis[k]
  {
    ParamsWith(vis, region, RenderingKeys)
  }

  /** Adds `key` from `vis` when the caller gave it. */
  function CopyKey(params: map<string, Value>, vis: map<string, Value>, key: string): (r: map<string, Value>)
    ensures r.Keys == params.Keys + (if key in vis then {key} else {})
    ensures forall k :: k in r && k != key ==> r[k] == params[k]
    ensures key in vis ==> r[key] == vis[key]
  {
    if key in vis then params[key := vis[key]] else params
  }

  /** Copying one more optional key extends the set of copied keys by it. */
  lemma CopyKeyExtends(vis: map<string, Value>, region: Region, keys: set<string>, key: string)
    requires key !in FixedParams(region)
    ensures CopyKey(ParamsWith(vis, region, keys), vis, key) == ParamsWith(vis, region, keys + {key})
  {
    var before := ParamsWith(vis, region, keys);
    var after := CopyKey(before, vis, key);
    var spec := ParamsWith(vis, region, keys + {key});
    forall k
      ensures k in after <==> k in spec
      ensures k in after ==> after[k] == spec[k]
    {
      if k != key && k in after {
        assert after[k] == before[k];
      }
    }
  }

  /** With none of `keys` given, only the fixed parameters remain. */
  lemma NothingToCopy(vis: map<string, Value>, region: Region, keys: set<string>)
    requires vis.Keys * keys == {}
    ensures ParamsWith(vis, region, keys) == FixedParams(region)
  {
    assert (map k | k in vis.Keys * keys :: vis[k]) == map[];
  }

  /** The optional keys are not among the fixed ones. */
  lemma OptionalKeysNotFixed(region: Region)
    ensures "min" !in FixedParams(region) && "max" !in FixedParams(region) && "palette" !in FixedParams(region)
  {
  }

  /** Builds the parameter dictionary key by key, as the script does. */
  method BuildRenderParams(vis: map<string, Value>, region: Region) returns (params: map<string, Value>)
    ensures params == RenderParams(vis, region)
  {
    params := FixedParams(region);
    if |vis| > 0 {
      ghost var copied: set<string> := {};
      NothingToCopy(vis, region, copied);
      OptionalKeysNotFixed(region);
      CopyKeyExtends(vis, region, copied, "min");
      params := CopyKey(params, vis, "min");
      copied := copied + {"min"};
      CopyKeyExtends(vis, region, copied, "max");
      params := CopyKey(params, vis, "max");
      copied := copied + {"max"};
      CopyKeyExtends(vis, region, copied, "palette");
      params := CopyKey(params, vis, "palette");
      copied := copied + {"palette"};
      assert copied == RenderingKeys;
    } else {
      NothingToCopy(vis, region, RenderingKeys);
    }
  }

  /** `get_flood_image_url`: the URL, or null when the service raises. */
  method FloodImageUrl(thumbs: ThumbService, layer: Layer, region: Region, vis: map<string, Value>)
    returns (url: Option<string>)
    ensures url == UrlOf(thumbs(ThumbRequest(layer, RenderParams(vis, region))))
  {
    var params := BuildRenderParams(vis, region);
    var reply := thumbs(ThumbRequest(layer, params));
    url := if reply.Url? then Some(reply.url) else None;
  }

  const VisRadar: map<string, Value> := map["min" := Int(-25), "max" := Int(0), "palette" := Colors(["000000", "ffffff"])]

  // ---------------------------------------------------------------- detection

  /** Where a backend exception is raised: before the recent-image count (always
      reached) or in the analysis after it (reached only when images exist). */
  datatype FloodStage = BeforeCount | AfterCount

  /** `ee.EEException` or any other exception. */
  datatype FaultKind = EarthEngineError | OtherError

  datatype FloodFault = FloodFault(stage: FloodStage, kind: FaultKind, message: string)

  /** What the raster service holds and answers for one invocation. */
  datatype FloodScene = FloodScene(
    images: seq<RadarImage>,       // Sentinel-1 IW/VV images over the region, before the date filter
    smooth: SpeckleFilter,
    pixelArea: seq<real>,          // area of each pixel of the region, km²
    floodedReply: Option<real>,    // the flood-area sum, null when nothing is summed
    totalReply: Option<real>,      // the region-area sum
    thumbs: ThumbService,
    fault: Option<FloodFault>)

  function InWindow(images: seq<RadarImage>, w: Window): seq<RadarImage> {
    Filter(images, (img: RadarImage) => w.Holds(img.time))
  }

  /** The reducer replies agree with the pixel model: each is null or the exact sum. */
  predicate Faithful(scene: FloodScene, recent: Window, baseline: Window) {
    var flood := FloodPixels(InWindow(scene.images, recent), InWindow(scene.images, baseline), scene.smooth, |scene.pixelArea|);
    && (scene.floodedReply.None? || scene.floodedReply.value == SumArea(scene.pixelArea, flood))
    && (scene.totalReply.None? || scene.totalReply.value == SumArea(scene.pixelArea, Pixels(|scene.pixelArea|)))
  }

  /** With faithful replies and non-negative pixel areas, the flooded area never
      exceeds the total and the percentage lies in [0, 100]. */
  lemma FaithfulStatisticsBounded(scene: FloodScene, recent: Window, baseline: Window)
    requires Faithful(scene, recent, baseline)
    requires NonNegative(scene.pixelArea)
    requires scene.floodedReply.Some? ==> scene.totalReply.Some?
    ensures var f := scene.floodedReply.GetOr(0.0);
      var t := scene.totalReply.GetOr(0.0);
      0.0 <= f <= t && 0.0 <= Percentage(f, t) <= 100.0
  {
    var all := Pixels(|scene.pixelArea|);
    var keep := (p: nat) => IsFloodPixel(InWindow(scene.images, recent), InWindow(scene.images, baseline), scene.smooth, p);
    FilteredAreaAtMostTotal(scene.pixelArea, all, keep);
    PercentageBounds(scene.floodedReply.GetOr(0.0), scene.totalReply.GetOr(0.0));
  }

  datatype FloodResult =
    | FloodReport(note: Option<string>, alertTriggered: bool, floodedAreaSqkm: real,
                  floodedPercentage: real, totalAreaSqkm: real, thresholdPercent: real,
                  startImageUrl: Option<string>, endImageUrl: Option<string>, dates: Window)
    | FloodError(message: string)
  {
    function Status(): string { if FloodReport? then "success" else "error" }
  }

  function ErrorText(f: FloodFault): string {
    (if f.kind == EarthEngineError then "GEE Error: " else "Script Error: ") + f.message
  }

  function NoPassMessage(recentDays: int): string {
    "No Sentinel-1 pass in last " + IntToString(recentDays) + " days."
  }

  /** What `check_flooding` answers for a scene: an error for a fault raised
      before the count, the no-pass note when the recent window is empty, an
      error for a fault reached after the count, and otherwise the report built
      from the reducer replies. */
  predicate FloodOutcome(scene: FloodScene, region: Region, now: Instant, yearBack: YearBack,
                         thresholdPercent: real, recentDays: int, round: Rounder, r: FloodResult)
  {
    var recent := InWindow(scene.images, RecentWindow(now, recentDays));
    var f := scene.floodedReply.GetOr(0.0);
    var t := scene.totalReply.GetOr(0.0);
    && (scene.fault.Some? && scene.fault.value.stage == BeforeCount ==> r == FloodError(ErrorText(scene.fault.value)))
    && ((scene.fault.None? || scene.fault.value.stage == AfterCount) && recent == [] ==>
          r == FloodReport(Some(NoPassMessage(recentDays)), false, 0.0, 0.0, 0.0, thresholdPercent,
                           None, None, RecentWindow(now, recentDays)))
    && (scene.fault.Some? && recent != [] ==> r == FloodError(ErrorText(scene.fault.value)))
    && (scene.fault.None? && recent != [] ==>
          && r.FloodReport? && r.note.None?
          && r.alertTriggered == Alerts(f, t, thresholdPercent)
          && r.floodedAreaSqkm == round(f, 3)
          && r.floodedPercentage == round(Percentage(f, t), 2)
          && r.totalAreaSqkm == round(t, 3)
          && r.thresholdPercent == thresholdPercent
          && r.dates == RecentWindow(now, recentDays)
          && r.startImageUrl == UrlOf(scene.thumbs(ThumbRequest(MedianRadar(BaselineWindow(now, yearBack)), RenderParams(VisRadar, region))))
          && r.endImageUrl == UrlOf(scene.thumbs(ThumbRequest(FloodOverlay(RecentWindow(now, recentDays)), RenderParams(map[], region)))))
  }

  /** `check_flooding`. */
  method CheckFlooding(scene: FloodScene, region: Region, now: Instant, yearBack: YearBack,
                       thresholdPercent: real, bufferMeters: int, recentDays: int, round: Rounder)
    returns (r: FloodResult)
    ensures FloodOutcome(scene, region, now, yearBack, thresholdPercent, recentDays, round, r)
  {
    if scene.fault.Some? && scene.fault.value.stage == BeforeCount {
      return FloodError(ErrorText(scene.fault.value));
    }
    var recentWindow := RecentWindow(now, recentDays);
    var baselineWindow := BaselineWindow(now, yearBack);
    var count := |InWindow(scene.images, recentWindow)|;
    if count == 0 {
      return FloodReport(Some(NoPassMessage(recentDays)), false, 0.0, 0.0, 0.0, thresholdPercent,
                         None, None, recentWindow);
    }
    if scene.fault.Some? {
      return FloodError(ErrorText(scene.fault.value));
    }
    var flooded := scene.floodedReply.GetOr(0.0);
    var total := scene.totalReply.GetOr(0.0);
    var percentage := Percentage(flooded, total);
    var alert := percentage > thresholdPercent;
    var baselineUrl := FloodImageUrl(scene.thumbs, MedianRadar(baselineWindow), region, VisRadar);
    var floodUrl := FloodImageUrl(scene.thumbs, FloodOverlay(recentWindow), region, map[]);
    r := FloodReport(None, alert, round(flooded, 3), round(percentage, 2), round(total, 3),
                     thresholdPercent, baselineUrl, floodUrl, recentWindow);
  }

  // ---------------------------------------------------------------- entry point

  /** A key of the JSON read from standard input: missing, an explicit `null`,
      or a value. */
  datatype JsonField<T> = Absent | Null | Given(value: T)

  /** The JSON read from standard input. The caller always writes `geometry`
      and `region_id`, possibly as `null`, and writes the numeric keys only
      when they hold numbers, so those are either absent or given. */
  datatype FloodInput = FloodInput(
    geometry: JsonField<GeoJson>,
    thresholdPercent: Option<real>,
    regionId: JsonField<string>,
    bufferMeters: Option<int>,
    recentDays: Option<int>)

  datatype FloodOutput =
    | Emitted(result: FloodResult, regionId: Option<string>)   // `check_flooding`'s record with `region_id` (null when `None`)
    | Failed(message: string)                                  // `{"status": "error", "message": ...}`, no `region_id`
  {
    function ExitCode(): int { if Emitted? then 0 else 1 }
  }

  const MissingCredentials: string := "Missing credentials arg"
  const MissingGeometry: string := "Input Error: 'geometry'"
  const InitFailed: string := "GEE Init Failed"
  /** `None.get('type')` raises inside the geometry block. */
  const NullGeometry: string := "Geometry Error: 'NoneType' object has no attribute 'get'"

  /** `params.get('region_id', 'unknown')`: the default only for a missing key. */
  function RegionIdOf(field: JsonField<string>): (r: Option<string>)
    ensures field.Absent? ==> r == Some("unknown")
    ensures field.Null? ==> r.None?
    ensures field.Given? ==> r == Some(field.value)
  {
    match field
    case Absent => Some("unknown")
    case Null => None
    case Given(id) => Some(id)
  }

  /** The script's main block. */
  method RunFloodMonitor(hasCredentialsArg: bool, input: FloodInput, authOk: bool, scene: FloodScene,
                         now: Instant, yearBack: YearBack, round: Rounder) returns (out: FloodOutput)
    ensures out.ExitCode() == 0 <==> out.Emitted?
    ensures !hasCredentialsArg ==> out == Failed(MissingCredentials)
    ensures hasCredentialsArg && input.geometry.Absent? ==> out == Failed(MissingGeometry)
    ensures hasCredentialsArg && !input.geometry.Absent? && !authOk ==> out == Failed(InitFailed)
    ensures hasCredentialsArg && input.geometry.Null? && authOk ==> out == Failed(NullGeometry)
    ensures (hasCredentialsArg && input.geometry.Given? && authOk
             && ResolveRegion(input.geometry.value, input.bufferMeters.GetOr(DefaultPointBuffer)).None?) ==>
        out == Failed("Geometry Error: Unknown Type: " + KindText(input.geometry.value.kind))
    ensures out.Emitted? <==>
      (hasCredentialsArg && input.geometry.Given? && authOk
       && ResolveRegion(input.geometry.value, input.bufferMeters.GetOr(DefaultPointBuffer)).Some?)
    ensures out.Emitted? ==>
      FloodOutcome(scene, ResolveRegion(input.geometry.value, input.bufferMeters.GetOr(DefaultPointBuffer)).value,
                   now, yearBack, input.thresholdPercent.GetOr(DefaultThresholdPercent),
                   input.recentDays.GetOr(DefaultRecentDays), round, out.result)
    ensures out.Emitted? && out.result.FloodReport? ==>
      && out.result.thresholdPercent == input.thresholdPercent.GetOr(DefaultThresholdPercent)
      && out.result.dates == RecentWindow(now, input.recentDays.GetOr(DefaultRecentDays))
    ensures out.Emitted? && input.regionId.Absent? ==> out.regionId == Some("unknown")
    ensures out.Emitted? && input.regionId.Null? ==> out.regionId.None?
    ensures out.Emitted? && input.regionId.Given? ==> out.regionId == Some(input.regionId.value)
  {
    if !hasCredentialsArg {
      return Failed(MissingCredentials);
    }
    if input.geometry.Absent? {
      return Failed(MissingGeometry);
    }
    var threshold := input.thresholdPercent.GetOr(DefaultThresholdPercent);
    var regionId := RegionIdOf(input.regionId);
    var buffer := input.bufferMeters.GetOr(DefaultPointBuffer);
    var recentDays := input.recentDays.GetOr(DefaultRecentDays);
    if !authOk {
      return Failed(InitFailed);
    }
    if input.geometry.Null? {
      return Failed(NullGeometry);
    }
    var geojson := input.geometry.value;
    var region := ResolveRegion(geojson, buffer);
    if region.None? {
      return Failed("Geometry Error: Unknown Type: " + KindText(geojson.kind));
    }
    var result := CheckFlooding(scene, region.value, now, yearBack, threshold, buffer, recentDays, round);
    out := Emitted(result, regionId);
  }
}
