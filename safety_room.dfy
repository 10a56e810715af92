/** The women-safety room command centre: where each member is drawn, the
    per-member status from the room's alerts, the suspicious-activity poll and
    its normalisation, the merged newest-first alert feed, the voice-log and
    message orders, the unread counter, the risk colour of an alert's score,
    and the alert card's expand-and-fetch behaviour. */
module SafetyRoom {
  import opened Wrappers
  import opened Seqs
  import opened Sorting
  import opened Strings

  // ---------------------------------------------------------------- member positions

  /** A coordinate field as stored; `0` and absence are both falsy. */
  predicate Truthy(v: Option<real>) { v.Some? && v.value != 0.0 }

  datatype LatLng = LatLng(lat: Option<real>, lng: Option<real>)

  /** A member record: the nested `current` pair, the flat `current_lat/lng`
      pair and the plain `lat/lng` pair. */
  datatype Member = Member(userId: string, current: Option<LatLng>, currentFlat: LatLng, plain: LatLng)

  predicate Usable(p: LatLng) { Truthy(p.lat) && Truthy(p.lng) }

  /** `getCoords`: the first usable pair, in the order nested, flat, plain. */
  function Coords(m: Member): (r: Option<(real, real)>)
    ensures r.None? <==> !(m.current.Some? && Usable(m.current.value)) && !Usable(m.currentFlat) && !Usable(m.plain)
    ensures m.current.Some? && Usable(m.current.value) ==>
      r == Some((m.current.value.lat.value, m.current.value.lng.value))
    ensures !(m.current.Some? && Usable(m.current.value)) && Usable(m.currentFlat) ==>
      r == Some((m.currentFlat.lat.value, m.currentFlat.lng.value))
    ensures !(m.current.Some? && Usable(m.current.value)) && !Usable(m.currentFlat) && Usable(m.plain) ==>
      r == Some((m.plain.lat.value, m.plain.lng.value))
    ensures r.Some? ==> r.value.0 != 0.0 && r.value.1 != 0.0
  {
    if m.current.Some? && Usable(m.current.value) then Some((m.current.value.lat.value, m.current.value.lng.value))
    else if Usable(m.currentFlat) then Some((m.currentFlat.lat.value, m.currentFlat.lng.value))
    else if Usable(m.plain) then Some((m.plain.lat.value, m.plain.lng.value))
    else None
  }

  // ---------------------------------------------------------------- alerts

  /** A timestamp as stored: text, a number of milliseconds, or nothing. */
  datatype Stamp = StampText(text: string) | StampMillis(ms: int) | NoStamp

  /** `new Date(timestamp)` in milliseconds, computed by the browser. */
  type DateParser = Stamp -> int

  /** An alert's id: a stored one, or a random one generated on the client. */
  datatype AlertId = Given(id: string) | Random

  datatype Alert = Alert(
    id: AlertId,
    kind: string,                 // `type`
    userId: Option<string>,
    reason: Option<string>,
    aiAnalysis: Option<string>,
    score: Option<real>,
    timestamp: Stamp)

  const Critical: string := "CRITICAL"
  const Suspicious: string := "SUSPICIOUS"

  /** One entry under `women/rooms/<room>/sos`, keyed by `key`; the stored
      `id` and `type`, when present, override the defaults because the data is
      spread last. */
  datatype SosEntry = SosEntry(key: string, storedId: Option<string>, storedType: Option<string>,
                               userId: Option<string>, reason: Option<string>, aiAnalysis: Option<string>,
                               score: Option<real>, timestamp: Stamp)

  function SosAlert(e: SosEntry): (a: Alert)
    ensures a.id == Given(e.storedId.GetOr(e.key))
    ensures a.kind == e.storedType.GetOr(Critical)
    ensures a.userId == e.userId && a.reason == e.reason && a.timestamp == e.timestamp
    ensures a.aiAnalysis == e.aiAnalysis && a.score == e.score
  {
    Alert(Given(e.storedId.GetOr(e.key)), e.storedType.GetOr(Critical), e.userId, e.reason,
          e.aiAnalysis, e.score, e.timestamp)
  }

  /** One item of the suspicious-activity poll; `score` is `Number(item.score)`,
      absent when that is not a number. */
  datatype PolledItem = PolledItem(id: Option<string>, score: Option<real>, userId: Option<string>,
                                   reason: Option<string>, timestamp: Stamp)

  /** Kept when its numeric score lies in [4.1, 7.9], both ends included. */
  predicate InSuspiciousBand(item: PolledItem) {
    item.score.Some? && 4.1 <= item.score.value <= 7.9
  }

  /** The normalised alert: a falsy id is replaced by a random one, the type is
      SUSPICIOUS, the analysis is the item's reason, and in a text timestamp the
      first " at " becomes a space. */
  function Normalise(item: PolledItem): (a: Alert)
    ensures a.kind == Suspicious && a.aiAnalysis == item.reason && a.reason == item.reason
    ensures a.userId == item.userId && a.score == item.score
    ensures a.id == (if item.id.Some? && item.id.value != "" then Given(item.id.value) else Random)
    ensures item.timestamp.StampText? ==> a.timestamp == StampText(ReplaceFirst(item.timestamp.text, " at ", " "))
    ensures !item.timestamp.StampText? ==> a.timestamp == item.timestamp
  {
    Alert(if item.id.Some? && item.id.value != "" then Given(item.id.value) else Random,
          Suspicious, item.userId, item.reason, item.reason, item.score,
          if item.timestamp.StampText? then StampText(ReplaceFirst(item.timestamp.text, " at ", " ")) else item.timestamp)
  }

  /** The poll's filter and map: exactly the in-band items, normalised, in poll order. */
  function SuspiciousAlerts(items: seq<PolledItem>): (r: seq<Alert>)
    ensures |r| == CountWhere(items, InSuspiciousBand)
    ensures forall k :: 0 <= k < |r| ==> r[k].kind == Suspicious
    ensures forall a :: a in r ==> exists item :: item in items && InSuspiciousBand(item) && a == Normalise(item)
    ensures forall item :: item in items && InSuspiciousBand(item) ==> Normalise(item) in r
    ensures IsSubsequence(r, Map(items, Normalise))
  {
    var kept := Filter(items, InSuspiciousBand);
    MapMembers(kept, Normalise);
    FilterIsSubsequence(items, InSuspiciousBand);
    MapSubsequence(kept, items, Normalise);
    Map(kept, Normalise)
  }

  /** The comparator `new Date(b) - new Date(a)`: `a` may stay first when it is not older. */
  function NewestFirst(parse: DateParser): (le: (Alert, Alert) -> bool)
    ensures TotalPreorder(le)
    ensures forall a, b :: le(a, b) <==> parse(a.timestamp) >= parse(b.timestamp)
  {
    (a: Alert, b: Alert) => parse(a.timestamp) >= parse(b.timestamp)
  }

  /** `allAlerts`: the SOS alerts and the suspicious ones, newest first. */
  method AllAlerts(sos: seq<SosEntry>, suspicious: seq<Alert>, parse: DateParser) returns (all: seq<Alert>)
    ensures Sorted(all, NewestFirst(parse))
    ensures multiset(all) == multiset(seq(|sos|, k requires 0 <= k < |sos| => SosAlert(sos[k])) + suspicious)
  {
    var sosAlerts := seq(|sos|, k requires 0 <= k < |sos| => SosAlert(sos[k]));
    all := SortedCopy(sosAlerts + suspicious, NewestFirst(parse));
  }

  /** The status shown on a member's marker. */
  datatype UserStatus = UserStatus(status: string, context: Option<string>)

  predicate TruthyText(s: Option<string>) { s.Some? && s.value != "" }

  predicate CriticalFor(a: Alert, userId: string) { a.userId == Some(userId) && a.kind == Critical }
  predicate SuspiciousFor(a: Alert, userId: string) { a.userId == Some(userId) && a.kind == Suspicious }

  /** `getUserStatus`: the member's first CRITICAL alert wins, with its reason as
      context; then the first SUSPICIOUS one, with its reason, else its
      analysis; else SAFE without context. */
  function StatusOf(alerts: seq<Alert>, userId: string): (r: UserStatus)
    ensures r.status == Critical <==> exists a :: a in alerts && a.userId == Some(userId) && a.kind == Critical
    ensures r.status == Suspicious <==>
      (forall a :: a in alerts && a.userId == Some(userId) ==> a.kind != Critical)
      && exists a :: a in alerts && a.userId == Some(userId) && a.kind == Suspicious
    ensures r.status == "SAFE" <==>
      forall a :: a in alerts && a.userId == Some(userId) ==> a.kind != Critical && a.kind != Suspicious
    ensures forall k :: (0 <= k < |alerts| && CriticalFor(alerts[k], userId)
                         && forall j :: 0 <= j < k ==> !CriticalFor(alerts[j], userId)) ==>
        r == UserStatus(Critical, alerts[k].reason)
    ensures forall k :: (0 <= k < |alerts| && SuspiciousFor(alerts[k], userId)
                         && (forall j :: 0 <= j < k ==> !SuspiciousFor(alerts[j], userId))
                         && forall j :: 0 <= j < |alerts| ==> !CriticalFor(alerts[j], userId)) ==>
        r == UserStatus(Suspicious, if TruthyText(alerts[k].reason) then alerts[k].reason else alerts[k].aiAnalysis)
    ensures r.status == "SAFE" ==> r.context.None?
  {
    var isCritical := (a: Alert) => CriticalFor(a, userId);
    var isSuspicious := (a: Alert) => SuspiciousFor(a, userId);
    FindFirst(alerts, isCritical);
    FindFirst(alerts, isSuspicious);
    var sosAlert := Find(alerts, isCritical);
    var suspAlert := Find(alerts, isSuspicious);
    if sosAlert.Some? then UserStatus(Critical, sosAlert.value.reason)
    else if suspAlert.Some? then
      UserStatus(Suspicious, if TruthyText(suspAlert.value.reason) then suspAlert.value.reason else suspAlert.value.aiAnalysis)
    else UserStatus("SAFE", None)
  }

  // ---------------------------------------------------------------- voice logs and messages

  datatype VoiceLog = VoiceLog(id: string, timestamp: Stamp, isListened: Option<bool>)

  predicate Unlistened(l: VoiceLog) { !(l.isListened == Some(true)) }

  /** `unreadVoiceCount`. */
  function UnreadVoiceCount(logs: seq<VoiceLog>): (n: nat)
    ensures n <= |logs|
    ensures n == 0 <==> forall k :: 0 <= k < |logs| ==> logs[k].isListened == Some(true)
    ensures n + CountWhere(logs, (l: VoiceLog) => l.isListened == Some(true)) == |logs|
  {
    FilterIsEmpty(logs, Unlistened);
    FilterPartition(logs, Unlistened, (l: VoiceLog) => l.isListened == Some(true));
    CountWhere(logs, Unlistened)
  }

  predicate LogNewestFirst(parse: DateParser, a: VoiceLog, b: VoiceLog) {
    parse(a.timestamp) >= parse(b.timestamp)
  }

  /** The voice logs, newest first. */
  method SortVoiceLogs(logs: seq<VoiceLog>, parse: DateParser) returns (sorted: seq<VoiceLog>)
    ensures forall i, j :: 0 <= i < j < |sorted| ==> parse(sorted[i].timestamp) >= parse(sorted[j].timestamp)
    ensures multiset(sorted) == multiset(logs)
  {
    var le := (a: VoiceLog, b: VoiceLog) => LogNewestFirst(parse, a, b);
    sorted := SortedCopy(logs, le);
    forall i, j | 0 <= i < j < |sorted|
      ensures parse(sorted[i].timestamp) >= parse(sorted[j].timestamp)
    {
      assert le(sorted[i], sorted[j]);
    }
  }

  datatype ChatMessage = ChatMessage(id: string, timestamp: int, text: string)

  /** The room's messages, oldest first (`a.timestamp - b.timestamp`). */
  method SortMessages(messages: seq<ChatMessage>) returns (sorted: seq<ChatMessage>)
    ensures forall i, j :: 0 <= i < j < |sorted| ==> sorted[i].timestamp <= sorted[j].timestamp
    ensures multiset(sorted) == multiset(messages)
  {
    var le := (a: ChatMessage, b: ChatMessage) => a.timestamp <= b.timestamp;
    sorted := SortedCopy(messages, le);
    forall i, j | 0 <= i < j < |sorted|
      ensures sorted[i].timestamp <= sorted[j].timestamp
    {
      assert le(sorted[i], sorted[j]);
    }
  }

  // ---------------------------------------------------------------- alert card

  /** A score shown on an expanded card: missing, null, a text label, or a number. */
  datatype RiskScore = Missing | NullScore | Text(text: string) | Number(x: real)

  datatype RiskColor = RiskRed | RiskAmber

  /** `getRiskColor`: "HIGH" or a numeric score below 4.1 is red; null counts as
      the number 0; everything else is amber. */
  function RiskColorOf(score: RiskScore): (c: RiskColor)
    ensures c == RiskRed <==>
      score == Text("HIGH") || score == NullScore || (score.Number? && score.x < 4.1)
  {
    match score
    case Text(t) => if t == "HIGH" then RiskRed else RiskAmber
    case NullScore => RiskRed
    case Number(x) => if x < 4.1 then RiskRed else RiskAmber
    case Missing => RiskAmber
  }

  /** What the expanded card shows. */
  datatype Details =
    | Inline(analysis: string, score: real)   // from the alert itself, source "AI Watchdog"
    | Fetched(body: string)                   // `/api/room/get-alert-details`
    | ConnectionFailed

  /** The details request's outcome: a body (possibly null) or a failure. */
  datatype DetailsReply = Delivered(body: Option<string>) | Unreachable

  /** `if (backendData)`: nothing held, or an empty response body, is falsy. */
  predicate HoldsDetails(d: Option<Details>) {
    d.Some? && d.value != Fetched("")
  }

  predicate HasInlineDetails(a: Alert) {
    TruthyText(a.aiAnalysis) && a.score.Some? && a.score.value != 0.0
  }

  /** The state of one alert card. */
  class AlertCard {
    var expanded: bool
    var loading: bool
    var backendData: Option<Details>

    constructor()
      ensures !expanded && !loading && backendData.None?
    {
      expanded := false;
      loading := false;
      backendData := None;
    }

    /** `handleExpand`: collapse an expanded card; otherwise expand, and show the
        alert's own analysis, or the details already held, or ask the backend;
        an empty body is held but falsy, so the next expand asks again.
        `fetched` says whether the backend was asked. */
    method HandleExpand(alert: Alert, reply: DetailsReply) returns (fetched: bool)
      modifies this
      ensures fetched <==> !old(expanded) && !HasInlineDetails(alert) && !HoldsDetails(old(backendData))
      ensures expanded == !old(expanded)
      ensures fetched ==> !loading
      ensures !fetched ==> loading == old(loading)
      ensures old(expanded) ==> backendData == old(backendData)
      ensures !old(expanded) && HasInlineDetails(alert) ==>
        backendData == Some(Inline(alert.aiAnalysis.value, alert.score.value))
      ensures !old(expanded) && !HasInlineDetails(alert) && HoldsDetails(old(backendData)) ==>
        backendData == old(backendData)
      ensures fetched ==> backendData == (match reply
        case Delivered(body) => if body.Some? then Some(Fetched(body.value)) else None
        case Unreachable => Some(ConnectionFailed))
    {
      if expanded {
        expanded := false;
        return false;
      }
      expanded := true;
      if HasInlineDetails(alert) {
        backendData := Some(Inline(alert.aiAnalysis.value, alert.score.value));
        return false;
      }
      if HoldsDetails(backendData) {
        return false;
      }
      loading := true;
      fetched := true;
      match reply {
        case Delivered(body) =>
          backendData := if body.Some? then Some(Fetched(body.value)) else None;
        case Unreachable =>
          backendData := Some(ConnectionFailed);
      }
      loading := false;
    }
  }

  /** An empty response body is stored but is falsy, so expanding the card again
      asks the backend again. */
  method EmptyBodyIsFetchedAgain(card: AlertCard, alert: Alert, next: DetailsReply)
    returns (first: bool, again: bool)
    requires !card.expanded && !HasInlineDetails(alert) && !HoldsDetails(card.backendData)
    modifies card
    ensures first && again
  {
    first := card.HandleExpand(alert, Delivered(Some("")));
    var collapse := card.HandleExpand(alert, next);
    again := card.HandleExpand(alert, next);
  }
}
