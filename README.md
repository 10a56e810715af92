# Civic monitoring core in Dafny

This project models the decision logic of a civic-services platform. It covers:

- **Two satellite detectors.** They run as scripts behind the server.
  - The **active-fire detector** reads FIRMS detection confidence and T21 brightness temperature over a scan window. It max-composites them, applies a two-tier fire test, drops built-up land (WorldCover class 50) and counts the surviving pixels. It then lists at most fifty fire clusters with a severity class, together with before/after thumbnail URLs.
  - The **Sentinel-1 flood detector** speckle-filters VV radar backscatter and thresholds it at -16 dB. It takes a per-pixel majority over a recent window and over a baseline window one year earlier. It marks new water as flood, sums areas, computes the flooded percentage and raises an alert above a threshold.

  Each detector is modelled together with its entry point: argument check, input defaults, authentication, geometry dispatch, error records and exit codes.
- **Server handlers.**
  - The waste duplicate check: the closest report within 6 m.
  - Donation interests and their chats.
  - Job posting, geohash search, joining and closing.
  - The map-report department classifier.
  - Complaint statistics.
- **Client views.**
  - The user report dashboard: merge, newest-first sort, resolve, delete, tabs and counters.
  - The women-safety zone card and zone list.
  - The women-safety room: alert aggregation, user status, voice logs, messages, risk colour and the expandable alert card.
  - The chat side panel: time format, send box, theme and watermark.
  - The report tracking timeline.

## How the model is structured

Remote services are not modelled. Each one becomes data or a function parameter:

- **Earth Engine** becomes a supplied *scene*. A scene holds the images of the region, the land cover, the clusters, the reducer replies, a thumbnail service and an optional fault with the stage at which it is raised.
- **Firestore** collections become maps and sequences held by classes (`InterestStore`, `JobStore`). Their methods state the complete new state. The order of a query's answer is the store's choice, so the nearby-job search takes the answers as a `CellQuery` parameter.
- **Clocks, rounding, date parsing, geohashing and the haversine distance** are parameters.

Pure computations are functions with lemmas. Step-by-step code is written as methods with loops and invariants, or as classes with `modifies` clauses: the fire list loop, render-parameter building, the duplicate search, the nearby-job query, the record mapping, and the component state. Sorting is done by one verified insertion sort, `Sorting.InsertionSort` / `Sorting.SortedCopy`, under a total preorder. JavaScript truthiness is written out explicitly: an empty string is falsy, and so is the number 0.

## Model

| member | source | states |
|---|---|---|
| FireMonitor.MaxComposite | server/src/gee/earth/fire/viirs_fire_monitor.py:52-57 | The composite is absent iff no image observed the pixel; otherwise it is one of the observations and no smaller than any of them. |
| FireMonitor.PeakAbove | server/src/gee/earth/fire/viirs_fire_monitor.py:52-60 | After `unmask(0)`, the composite exceeds a non-negative threshold iff some observation in the window exceeds it. |
| FireMonitor.FirePixelIffObserved | server/src/gee/earth/fire/viirs_fire_monitor.py:52-66 | A pixel counts as fire iff it is not built-up land and some image had confidence > 90, or some had confidence > 40 and some had brightness > 330 K. |
| FireMonitor.Severity | server/src/gee/earth/fire/viirs_fire_monitor.py:139-141 | Severe iff > 350 K, Smoldering iff < 330 K, Moderate iff in [330, 350]. |
| FireMonitor.BuildFireList | server/src/gee/earth/fire/viirs_fire_monitor.py:122-148 | The list holds the first min(n, 50) clusters in order, each with the centroid's lat/lng swapped from [x, y], the intensity of its peak (0 K when missing) and the rounded Celsius temperature. |
| FireMonitor.WindowPlan | server/src/gee/earth/fire/viirs_fire_monitor.py:43-49 | The scan window ends now and spans daysBack days; the baseline is that window moved back a year; the no-fire context view starts 10 days earlier and also ends now. |
| FireMonitor.ThumbParams | server/src/gee/earth/fire/viirs_fire_monitor.py:28-39 | The thumbnail request always carries min, max, palette, dimensions 512, the region and png, with defaults 0, 1 and black-to-white for missing visual keys. |
| FireMonitor.PixelCount | server/src/gee/earth/fire/viirs_fire_monitor.py:68-74 | `count or 0`: the count reducer's supplied reply, with null read as 0. |
| FireMonitor.FiresNeedImages | server/src/gee/earth/fire/viirs_fire_monitor.py:56-74 | With no image in the window, no pixel is a fire pixel, so a faithful count for that window is 0. |
| FireMonitor.AlertIffFirePixel | server/src/gee/earth/fire/viirs_fire_monitor.py:68-78 | When the count reply agrees with the pixel model (`FaithfulCount`), the pixel count is positive iff some pixel of the region passes the fire test. |
| FireMonitor.DetectActiveFires | server/src/gee/earth/fire/viirs_fire_monitor.py:41-167 | `FireOutcome`: an error record iff a fault is reached (scanning always, vectorising only with fires). Otherwise the "Fire scan complete" record with the alert iff count > 0, the count, the fire list only when fires exist, the baseline URL, and the fire or context end URL; the dates are always the scan window. |
| FireMonitor.RunFireMonitor | server/src/gee/earth/fire/viirs_fire_monitor.py:169-202 | Exit 0 iff a detector record is emitted. Missing credentials argument, failed authentication, absent geometry and unknown geometry types each give their own failure. An emitted record carries the given region_id and is the detector's outcome (`FireOutcome`) for the resolved geometry with `previousDays` defaulting to 5 and the buffer to 5000 m. |
| FloodMonitor.ApplyWaterThreshold | server/src/gee/earth/flood/sentinel1_flood.py:41-44 | A smoothed pixel is water iff its backscatter is strictly below -16 dB; a masked pixel stays masked. |
| FloodMonitor.MajorityWater | server/src/gee/earth/flood/sentinel1_flood.py:102-104 | No votes gives a masked pixel; otherwise water iff more than half of the votes are water. |
| FloodMonitor.MedianIsMajority | server/src/gee/earth/flood/sentinel1_flood.py:102-104 | The median of the 0/1 water votes exceeds 0.5 iff water is a strict majority. |
| FloodMonitor.SumAreaNonNegative | server/src/gee/earth/flood/sentinel1_flood.py:107-129 | Summed pixel areas are non-negative. |
| FloodMonitor.FilteredAreaAtMostTotal | server/src/gee/earth/flood/sentinel1_flood.py:107-129 | The flooded area, a sum over a subset of the pixels, lies between 0 and the total area. |
| FloodMonitor.PercentageBounds | server/src/gee/earth/flood/sentinel1_flood.py:107-129 | The percentage lies in [0, 100] and equals flooded/total·100 when the total is positive. |
| FloodMonitor.FaithfulStatisticsBounded | server/src/gee/earth/flood/sentinel1_flood.py:102-130 | For reducer replies that match the pixel model, the flooded area is within [0, total] and the percentage within [0, 100]. |
| FloodMonitor.WindowPlan | server/src/gee/earth/flood/sentinel1_flood.py:67-72 | The recent window ends now and spans recentDays days; the baseline spans 30 days and ends a year before now. |
| FloodMonitor.RenderParams | server/src/gee/earth/flood/sentinel1_flood.py:46-63 | The thumbnail request has the fixed keys plus exactly those of min, max and palette that the visual map provides, copied unchanged. |
| FloodMonitor.CopyKeyExtends | server/src/gee/earth/flood/sentinel1_flood.py:55-58 | Copying one more optional key that the caller may have given extends the set of copied keys by exactly that key. |
| FloodMonitor.BuildRenderParams | server/src/gee/earth/flood/sentinel1_flood.py:46-63 | The step-by-step construction (fixed keys, then min, max and palette when the visual map is non-empty) equals the render parameters. |
| FloodMonitor.FloodImageUrl | server/src/gee/earth/flood/sentinel1_flood.py:46-63 | The URL is the service's URL for those parameters, or null when the service raises. |
| FloodMonitor.CheckFlooding | server/src/gee/earth/flood/sentinel1_flood.py:65-182 | `FloodOutcome`: a fault before the count gives a "GEE Error"/"Script Error" record. With no pass in the recent window the result is the no-pass note with zero statistics and null URLs. Otherwise a reached fault is an error; without one the report gives alert iff percentage > threshold, rounded areas and percentage, the window, and both URLs. |
| FloodMonitor.RunFloodMonitor | server/src/gee/earth/flood/sentinel1_flood.py:185-224 | Exit 0 iff a record is emitted. Missing argument, missing geometry key, failed initialisation, null geometry and unknown geometry type each give their own failure. An emitted record is the detector's outcome (`FloodOutcome`) for the resolved geometry, with the threshold defaulting to 5.0 %, the recent window to 10 days and the point buffer to 1000 m; it carries region_id: "unknown" when the key is missing, null when it is null, the given id otherwise. |
| ReportDashboard.MergeTags | client/src/pages/reports/user/userReportDashboard.jsx:55-61 | The merged list holds the waste, infrastructure and water reports in that order, tagged WASTE, INFRA and WATER by the array they came from. |
| ReportDashboard.Merge | client/src/pages/reports/user/userReportDashboard.jsx:55-61 | No reply gives no reports; a missing array counts as empty, and the merged list is the three tagged arrays concatenated. |
| ReportDashboard.NewestFirstIsPreorder | client/src/pages/reports/user/userReportDashboard.jsx:63-67 | Ordering by creation seconds (missing = 0), newest first, is a total preorder. |
| ReportDashboard.SortedIsNewestFirst | client/src/pages/reports/user/userReportDashboard.jsx:63-67 | A sorted list has non-increasing creation seconds. |
| ReportDashboard.Resolve | client/src/pages/reports/user/userReportDashboard.jsx:102-104 | Exactly the reports with the given id become resolved; the others are unchanged. |
| ReportDashboard.Remove | client/src/pages/reports/user/userReportDashboard.jsx:115 | Exactly the reports with other ids remain, in their order. |
| ReportDashboard.CountersAddUp | client/src/pages/reports/user/userReportDashboard.jsx:192-213 | The pending and resolved counters add up to the total. |
| ReportDashboard.RemoveCount | client/src/pages/reports/user/userReportDashboard.jsx:115 | Deleting removes exactly the reports carrying that id. |
| ReportDashboard.ResolveCount | client/src/pages/reports/user/userReportDashboard.jsx:102-104 | After resolving, the resolved count is the old count plus the pending reports with that id. |
| ReportDashboard.FilterReports | client/src/pages/reports/user/userReportDashboard.jsx:121-128 | The view keeps, in order, exactly the reports that match the category and status tabs, each as often as the list holds it. |
| ReportDashboard.FilterTabs | client/src/pages/reports/user/userReportDashboard.jsx:121-128 | ALL/ALL shows every report; within a category, the PENDING and RESOLVED tabs partition the ALL tab. |
| ReportDashboard.Dashboard.Load | client/src/pages/reports/user/userReportDashboard.jsx:44-74 | A thrown request leaves the list unchanged; otherwise the list is a newest-first permutation of the merged reports. |
| ReportDashboard.ResolvePrompt | client/src/pages/reports/user/userReportDashboard.jsx:82-88 | The confirmation asks whether the issue is fixed iff the first report with the id awaits approval; otherwise, and for an unknown id, it asks for a manual resolve. |
| ReportDashboard.Dashboard.MarkResolved | client/src/pages/reports/user/userReportDashboard.jsx:81-111 | When the user confirms the question shown and the resolve request succeeds, the list becomes the resolved list; otherwise it is unchanged. |
| ReportDashboard.Dashboard.Delete | client/src/pages/reports/user/userReportDashboard.jsx:113-120 | After the user confirms, the list becomes the list without that id; otherwise it is unchanged. |
| ZoneDetails.CardScore | client/src/pages/administration/women/WomenSafetyZoneDetails.jsx:43 | The card reads an undefined score as 10 and a null score as 0. |
| ZoneDetails.ListScore | client/src/pages/administration/women/WomenSafetyZoneDetails.jsx:251-267 | The zone list reads a missing or null score as 10. |
| ZoneDetails.ScoreLabelAccurate | client/src/pages/administration/women/WomenSafetyZoneDetails.jsx:44 | The label shows the score rounded half-up to one decimal, within 0.05 of the raw score. |
| ZoneDetails.ActiveUserCount | client/src/pages/administration/women/WomenSafetyZoneDetails.jsx:50-52 | The live member count when members exist, else the route's user count, else 0. |
| ZoneDetails.StyleOf | client/src/pages/administration/women/WomenSafetyZoneDetails.jsx:47-63 | SOS pulse iff an SOS is active; otherwise danger below 4, caution in [4, 7), calm from 7. |
| ZoneDetails.ScoreTextColor | client/src/pages/administration/women/WomenSafetyZoneDetails.jsx:65-69 | Red below 5, amber in [5, 8), emerald from 8. |
| ZoneDetails.RoomBeforeIsPreorder | client/src/pages/administration/women/WomenSafetyZoneDetails.jsx:251-261 | SOS-first, then lowest-score-first, is a total preorder. |
| ZoneDetails.SortedRoomsOrder | client/src/pages/administration/women/WomenSafetyZoneDetails.jsx:251-261 | In a sorted list, SOS rooms come first, and rooms with the same SOS state are in ascending score order. |
| ZoneDetails.SortRooms | client/src/pages/administration/women/WomenSafetyZoneDetails.jsx:251-261 | The zone list is a sorted permutation of the rooms. |
| ZoneDetails.AlertRooms | client/src/pages/administration/women/WomenSafetyZoneDetails.jsx:263-267 | The alert list keeps, in order, exactly the rooms with score < 7 or an active SOS, each as often as the sorted list holds it. |
| ZoneDetails.StyledCardsAreAlerts | client/src/pages/administration/women/WomenSafetyZoneDetails.jsx:55-63 | For a non-null score, a room's card is highlighted iff the room is in the alert list. |
| ZoneDetails.AddressCache.Lookup | client/src/pages/administration/women/WomenSafetyZoneDetails.jsx:13-33 | A cached key answers from the cache without fetching. Otherwise the first geocoded address, or "Address unavailable", is returned; only a found address is cached. |
| SafetyRoom.Coords | client/src/pages/administration/women/WomenSafetyRoom.jsx:43-54 | The nested current location, then the flat current fields, then the plain fields, each only when both numbers are truthy; none when no pair is usable. |
| SafetyRoom.SosAlert | client/src/pages/administration/women/WomenSafetyRoom.jsx:547 | An SOS entry keeps its stored id or else its key, and its stored type or else CRITICAL; user, reason, analysis, score and timestamp are copied. |
| SafetyRoom.Normalise | client/src/pages/administration/women/WomenSafetyRoom.jsx:484-502 | A polled item becomes a SUSPICIOUS alert whose reason doubles as its AI analysis, with its id or a random one, its user and score carried over, and with " at " removed once from a text timestamp. |
| SafetyRoom.SuspiciousAlerts | client/src/pages/administration/women/WomenSafetyRoom.jsx:484-502 | Exactly the polled items whose score lies in [4.1, 7.9], each normalised to a SUSPICIOUS alert, in poll order (a subsequence of all items normalised). |
| SafetyRoom.NewestFirst | client/src/pages/administration/women/WomenSafetyRoom.jsx:588-590 | Comparing parsed timestamps, newest first, is a total preorder. |
| SafetyRoom.AllAlerts | client/src/pages/administration/women/WomenSafetyRoom.jsx:588-590 | The alert feed is a newest-first permutation of the SOS alerts followed by the suspicious ones. |
| SafetyRoom.StatusOf | client/src/pages/administration/women/WomenSafetyRoom.jsx:385-393 | CRITICAL iff the user has a critical alert, with the first one's reason as context; else SUSPICIOUS iff they have a suspicious one, with the first one's reason, or its analysis when the reason is empty; else SAFE without context. |
| SafetyRoom.UnreadVoiceCount | client/src/pages/administration/women/WomenSafetyRoom.jsx:596 | The unread count and the count of listened logs add up to the log count; the unread count is 0 iff every log is listened. |
| SafetyRoom.SortVoiceLogs | client/src/pages/administration/women/WomenSafetyRoom.jsx:566-571 | Voice logs are a newest-first permutation. |
| SafetyRoom.SortMessages | client/src/pages/administration/women/WomenSafetyRoom.jsx:536-538 | Messages are an oldest-first permutation. |
| SafetyRoom.RiskColorOf | client/src/pages/administration/women/WomenSafetyRoom.jsx:111-115 | Red iff the score is "HIGH", null (read as 0) or a number below 4.1; amber otherwise, including an undefined score. |
| SafetyRoom.AlertCard.HandleExpand | client/src/pages/administration/women/WomenSafetyRoom.jsx:72-109 | Toggling collapses or expands. Details are fetched only on expand, without inline details and without truthy held details (an empty body is falsy). The response body is stored (nothing for a null body, a connection-failure marker when unreachable) and loading ends. |
| SafetyRoom.EmptyBodyIsFetchedAgain | client/src/pages/administration/women/WomenSafetyRoom.jsx:86-102 | After an empty response body, expanding the card again fetches again. |
| ChatPanel.Pad2 | client/src/pages/features/women/chat-side-panel.jsx:174-178 | Left-pads with '0' to two characters and keeps the original as the suffix. |
| ChatPanel.PadTwoDigits | client/src/pages/features/women/chat-side-panel.jsx:174-178 | A number below 100, padded, is two digits that read back as the number. |
| ChatPanel.FormatTimeRoundTrip | client/src/pages/features/women/chat-side-panel.jsx:174-178 | Below 100 minutes the time reads "mm:ss"; the first two digits parse to the whole minutes and the last two to the remaining seconds. |
| ChatPanel.FormatTime | client/src/pages/features/women/chat-side-panel.jsx:174-178 | From 100 minutes on, the text is longer than "mm:ss". |
| ChatPanel.SendBox.HandleSend | client/src/pages/features/women/chat-side-panel.jsx:180-184 | A blank draft is ignored; any other draft is sent as typed and cleared. |
| ChatPanel.PanelTheme | client/src/pages/features/women/chat-side-panel.jsx:198-208 | Neutral iff the score is null; otherwise red iff SOS fired, SOS is disabled or the score is below 4, amber iff none of those and the score is below 7 (an undefined score is below nothing). |
| ChatPanel.WatermarkOf | client/src/pages/features/women/chat-side-panel.jsx:210-233 | High alert iff SOS fired or is disabled. Otherwise, with a non-null score: critical danger iff the score is below 4, surveillance iff it is not below 4 but below 7. No watermark iff neither SOS case holds and the score is null or not below 7. |
| ChatPanel.ThemeMatchesWatermark | client/src/pages/features/women/chat-side-panel.jsx:198-233 | With a non-null score the theme and the watermark agree tier for tier (red with high alert or critical, amber with surveillance, green with none); with a null score the panel is neutral even when the watermark is high alert. |
| TrackReports.StepIndex | client/src/pages/reports/track/TrackReports.jsx:61-69 | The step is the position of the status (default OPEN) in the timeline, and 0 for unknown statuses. |
| TrackReports.StepOrder | client/src/pages/reports/track/TrackReports.jsx:18-23 | Each timeline status maps back to its own step. |
| TrackReports.TimelineShape | client/src/pages/reports/track/TrackReports.jsx:202-204 | Exactly one step is current; it and all earlier steps are completed, later ones are not, so exactly index + 1 steps are completed. |
| TrackReports.StepIndexAsWritten | client/src/pages/reports/track/TrackReports.jsx:61-69 | A status that names an inherited object property yields that property rather than a step index. |
| TrackReports.InheritedStatusShowsNoStep | client/src/pages/reports/track/TrackReports.jsx:104 | For status "constructor" the timeline shows no completed and no current step. |
| WasteCheck.CheckDuplicate | server/src/controllers/localityCheck/wasteCheck.js:18-71 | 400 without a usable location, 500 when the query fails. Otherwise a duplicate iff some usable report lies within 6 m. The one answered is the closest; it carries the report's imageUrl, the request's geohash, the report's document id as userId, and its email as locality_email. |
| Interests.DisplayName | server/src/controllers/interest.controller.js:9-23 | name, then fullName, then username, then the fallback, skipping empty values. |
| Interests.DisplayNameNonEmpty | server/src/controllers/interest.controller.js:40-45 | With a non-empty fallback the display name is never empty. |
| Interests.NewInterest | server/src/controllers/interest.controller.js:60-71 | A new interest is pending, has no chat and links the donation, donor and recipient. |
| Interests.InterestStore.CreateInterestAsWritten | server/src/controllers/interest.controller.js:5-78 | 404 for an unknown donation, 409 when the composite key exists; otherwise the interest is stored under a fresh generated id. |
| Interests.InterestStore.CreateInterest | server/src/controllers/interest.controller.js:5-78 | As above, but the interest is stored under the composite key that is checked. |
| Interests.InterestStore.AcceptInterest | server/src/controllers/interest.controller.js:82-121 | 404 for an unknown interest; an existing chat id is returned unchanged; otherwise a new two-party chat is created and the interest accepted with it. |
| Interests.InterestStore.InterestsOf | server/src/controllers/interest.controller.js:124-169 | Exactly the stored interests whose donor (or, for the recipient listing, whose recipient) is the caller, each unchanged. |
| Interests.InterestStore.InterestsForDonor | server/src/controllers/interest.controller.js:124-144 | 401 without a caller, otherwise the donor's interests. |
| Interests.InterestStore.InterestsForRecipient | server/src/controllers/interest.controller.js:148-169 | 401 without a caller, otherwise the recipient's interests. |
| Interests.RepeatedInterestAsWritten | server/src/controllers/interest.controller.js:48-71 | As written, sending the same interest twice creates two interests. |
| Interests.RepeatedInterestRejected | server/src/controllers/interest.controller.js:48-71 | With the key used for storage, the second send is rejected with 409. |
| Interests.AcceptTwice | server/src/controllers/interest.controller.js:96-98 | Accepting twice returns the same chat and creates at most one chat. |
| Jobs.GatheredPermutesNearby | server/src/routes/job.route.js:71-86 | When the store answers each cell with that cell's open jobs in any order, the gathered answers are a permutation of the nearby jobs. |
| Jobs.NearbyJobsExact | server/src/routes/job.route.js:56-92 | A job is listed iff it is open and its geohash is the caller's cell or a neighbour. |
| Jobs.JobStore.CreateJob | server/src/routes/job.route.js:7-53 | 400 for missing or falsy fields (the number 0 is falsy, the text "0" is not) or non-finite coordinates. Otherwise an open job is appended with its geohash and `Number(amount)`, and an employer-only chat is opened. |
| Jobs.JobStore.Nearby | server/src/routes/job.route.js:56-92 | 400 without coordinates. Otherwise the store's answers for the caller's cell and its neighbours, cell after cell; when each answer holds that cell's open jobs, the listing holds the nearby open jobs, each as often. |
| Jobs.JobStore.MyJobs | server/src/routes/job.route.js:94-109 | The caller's jobs, newest first. |
| Jobs.JobStore.Join | server/src/routes/job.route.js:110-136 | 401 without a caller, 404 for an unknown job or chat, 403 for a closed job; otherwise the caller is added once to the participants. |
| Jobs.JobStore.Close | server/src/routes/job.route.js:137-156 | 404 for an unknown job, 403 for another employer; otherwise the job is closed. |
| Jobs.JoinKeepsParticipantsDistinct | server/src/routes/job.route.js:126-130 | Joining keeps the participants free of duplicates and includes the caller. |
| Jobs.CloseThenJoin | server/src/routes/job.route.js:110-156 | After the employer closes a job, a join is refused and the participants are unchanged. |
| MapReports.DepartmentOf | server/src/routes/mapReports.js:13-19 | The department follows the collection path with priority FIRE, ELECTRICITY, WATER, WASTE (each tier stated), and INFRASTRUCTURE iff no name occurs. |
| MapReports.ClassifyPath | server/src/routes/mapReports.js:13-19 | The sequential checks give that department. |
| MapReports.RecordOf | server/src/routes/mapReports.js:21-25 | A record is the stored fields plus id and department, with stored values taking precedence. |
| MapReports.MapRecords | server/src/routes/mapReports.js:6-34 | One record per document, in order. |
| ComplaintStats.Against | server/src/controllers/complaintStats.controller.js:11-16 | Exactly the complaints against the user, in store order, each as often as stored. |
| ComplaintStats.StatsFor | server/src/controllers/complaintStats.controller.js:18-22 | The total counts the complaints against the user; pending and resolved count those against the user with status "pending" and "resolved" respectively. |
| ComplaintStats.StatsConsistent | server/src/controllers/complaintStats.controller.js:18-22 | Pending plus resolved never exceeds the total. |
| EarthEngine.ResolveRegion | server/src/gee/earth/fire/viirs_fire_monitor.py:186-196 | Point becomes a buffered point, Polygon and MultiPolygon become their shapes, and any other type is rejected. |
| EarthEngine.UrlOf | server/src/gee/earth/fire/viirs_fire_monitor.py:36-39 | A thumbnail URL is null exactly when the service raises. |

## Left out

- Earth Engine itself is not modelled: collection filtering by bounds, projection, the reducers' scale and `bestEffort` sampling, vectorisation, the speckle filter and the thumbnail service are inputs. The reducer replies are inputs too: the flood sums are tied to the pixel model only by `FloodMonitor.Faithful`, the fire count only by `FireMonitor.FaithfulCount`. A window without images may make the fire count raise instead of answering; that is the scene's scanning fault.
- Credentials files, command-line parsing, JSON reading and writing, and `ee.Initialize` are reduced to flags and records.
- Python's `round` is a `Rounder` parameter; banker's rounding is not modelled.
- The one-year shift of the baseline windows is a `YearBack` parameter, because calendar arithmetic (leap days) is out of scope.
- Fire date formatting runs before the detector's `try`; its failures are not modelled.
- `regionGeoJson` given as JSON null is treated like an absent key in the fire detector.
- FloodMonitor.RunFloodMonitor: a JSON null in the numeric keys (threshold, buffer, recent days) is not modelled, because the caller writes those keys only when they hold numbers.
- Jobs.JobStore.CreateJob: an amount text that is not a number is stored as NaN; the model takes `Number(text)` as a given real and does not represent NaN.
- FloodMonitor.MedianIsMajority: the median of an even number of votes is taken as the mean of the middle two, so a tie gives 0.5 and is not water. This is an assumption about Earth Engine's median reducer, which is not modelled.
- Flood: failures while formatting the no-pass note are not modelled separately from other faults.
- Sort stability is not modelled: each sort is specified as a sorted permutation.
- Comparators that return NaN, and unparseable dates, are not modelled: timestamps are parsed by a `DateParser` parameter into integers.
- SafetyRoom.RiskColorOf: a score given as numeric or blank text, such as "3" or "", is treated as text (amber), whereas the source converts it to a number (0 for blank text) and would show red.
- Alert ids from `Math.random` are modelled as a `Random` marker, not a value.
- Rendering (markup, icons, animation) and React scheduling are not modelled. Merging room data from several listeners is not modelled either.
- The order of the donor and recipient interest listings is not modelled: they are returned as maps.
- Malformed document ids that make the Firestore SDK throw, and the 500 answers caused by those throws, are not modelled.
- The haversine distance and the geohash encoder and neighbours are parameters (`DistanceFn`, `GeohashEncoder`, `GeohashNeighbors`).
- Firestore server timestamps are passed in as `now`.
- ChatPanel.FormatTime: its own contract states only the length from 100 minutes on; the exact text below 100 minutes is stated by `ChatPanel.FormatTimeRoundTrip`.
- ZoneDetails.StyledCardsAreAlerts: requires a non-null score, because the card reads null as 0 while the list reads it as 10, so the two disagree there.

## Findings

| source | as written | input that shows it | evidently intended | confidence | as-written member | corrected member |
|---|---|---|---|---|---|---|
| server/src/controllers/interest.controller.js:48-71 | The duplicate check reads the document `${donationId}_${recipientId}`, but the interest is stored with `add()` under a generated id, so the checked document never exists. | The same recipient sends interest in the same donation twice: both calls answer success, with two different interest ids. | Store the interest under the checked key (`interestRef.set`), so the second call answers 409 "Interest already sent". | not executed | Interests.InterestStore.CreateInterestAsWritten, Interests.RepeatedInterestAsWritten | Interests.InterestStore.CreateInterest, Interests.RepeatedInterestRejected |
| client/src/pages/reports/track/TrackReports.jsx:61-69 | `statusMap[status] ?? 0` also looks up properties inherited from `Object.prototype`. | A report whose status is "constructor": the step index is a function, so no timeline step is completed or current. | Look up only the map's own keys and fall back to step 0. | not executed; low, since such a status is unlikely | TrackReports.StepIndexAsWritten, TrackReports.InheritedStatusShowsNoStep | TrackReports.StepIndex, TrackReports.TimelineShape |
