/** The zone detail page of the women-safety administration: one card per live
    room with its safety score, SOS state, user count and style tier, the rooms
    ordered SOS first and then by ascending score, the alert list, and the
    reverse-geocoding cache for the rooms' start addresses. */
module ZoneDetails {
  import opened Wrappers
  import opened Seqs
  import opened Sorting
  import opened Strings

  /** `liveData.finalScore.score`: absent, stored as null, or a number. */
  datatype Score = Absent | Null | Num(x: real)

  datatype LiveData = LiveData(
    score: Score,
    sosTriggered: Option<real>,        // `sos_triggered`, absent when missing or falsy
    members: Option<set<string>>)      // the keys of `members`, when the object is present

  datatype RouteData = RouteData(userCount: Option<nat>)

  datatype Room = Room(roomId: string, live: Option<LiveData>, route: Option<RouteData>, startAddress: Option<string>)

  function ScoreOf(room: Room): Score {
    if room.live.Some? then room.live.value.score else Absent
  }

  /** The card's `rawScore`: only an absent score defaults to 10; a stored null
      compares and rounds as 0. */
  function CardScore(room: Room): (raw: real)
    ensures ScoreOf(room).Absent? ==> raw == 10.0
    ensures ScoreOf(room).Null? ==> raw == 0.0
    ensures ScoreOf(room).Num? ==> raw == ScoreOf(room).x
  {
    match ScoreOf(room)
    case Absent => 10.0
    case Null => 0.0
    case Num(x) => x
  }

  /** The sorting and alert score, `score ?? 10`: absent and null both become 10. */
  function ListScore(room: Room): (s: real)
    ensures ScoreOf(room).Num? ==> s == ScoreOf(room).x
    ensures !ScoreOf(room).Num? ==> s == 10.0
  {
    if ScoreOf(room).Num? then ScoreOf(room).x else 10.0
  }

  /** `Math.round`: the nearest integer, halves rounded up. */
  function RoundHalfUp(x: real): (n: int)
    ensures x - 0.5 < n as real <= x + 0.5
  {
    (x + 0.5).Floor
  }

  /** A count of tenths rendered with one decimal (`toFixed(1)`). */
  function TenthsText(tenths: int): string {
    var m: nat := if tenths < 0 then -tenths else tenths;
    (if tenths < 0 then "-" else "") + NatToString(m / 10) + "." + [DigitChar(m % 10)]
  }

  /** The label on the card: "10.0" for a score of exactly 10, otherwise the
      score rounded to the nearest tenth. */
  function ScoreLabel(raw: real): (text: string)
    ensures raw == 10.0 ==> text == "10.0"
    ensures raw != 10.0 ==> text == TenthsText(RoundHalfUp(raw * 10.0))
  {
    if raw == 10.0 then "10.0" else TenthsText(RoundHalfUp(raw * 10.0))
  }

  /** The special case for 10 agrees with the general rule, and the label's value
      is within a twentieth of the score. */
  lemma ScoreLabelAccurate(raw: real)
    ensures ScoreLabel(raw) == TenthsText(RoundHalfUp(raw * 10.0))
    ensures var t := RoundHalfUp(raw * 10.0) as real / 10.0;
      raw - 0.05 < t <= raw + 0.05
  {
    if raw == 10.0 {
      assert RoundHalfUp(100.0) == 100;
      assert NatToString(10) == "10" by {
        assert NatToString(1) == "1";
      }
    }
  }

  /** `(sos_triggered || 0) > 0`. */
  predicate IsSos(room: Room) {
    room.live.Some? && room.live.value.sosTriggered.GetOr(0.0) > 0.0
  }

  /** Members present: their number; otherwise the route's `userCount`, or 0. */
  function ActiveUserCount(room: Room): (n: nat)
    ensures room.live.Some? && room.live.value.members.Some? ==> n == |room.live.value.members.value|
    ensures !(room.live.Some? && room.live.value.members.Some?) && room.route.Some? ==>
      n == room.route.value.userCount.GetOr(0)
    ensures !(room.live.Some? && room.live.value.members.Some?) && room.route.None? ==> n == 0
  {
    if room.live.Some? && room.live.value.members.Some? then |room.live.value.members.value|
    else if room.route.Some? then room.route.value.userCount.GetOr(0)
    else 0
  }

  /** The card's container style. */
  datatype CardStyle = SosPulse | Danger | Caution | Calm

  function StyleOf(room: Room): (style: CardStyle)
    ensures style == SosPulse <==> IsSos(room)
    ensures style == Danger <==> !IsSos(room) && CardScore(room) < 4.0
    ensures style == Caution <==> !IsSos(room) && 4.0 <= CardScore(room) < 7.0
    ensures style == Calm <==> !IsSos(room) && CardScore(room) >= 7.0
  {
    if IsSos(room) then SosPulse
    else if CardScore(room) < 4.0 then Danger
    else if CardScore(room) < 7.0 then Caution
    else Calm
  }

  /** `getScoreTextColor`. */
  datatype TextColor = RedText | AmberText | EmeraldText

  function ScoreTextColor(s: real): (c: TextColor)
    ensures c == RedText <==> s < 5.0
    ensures c == AmberText <==> 5.0 <= s < 8.0
    ensures c == EmeraldText <==> s >= 8.0
  {
    if s < 5.0 then RedText else if s < 8.0 then AmberText else EmeraldText
  }

  /** The `sortedRooms` comparator: `a` may stay before `b` when it is SOS and `b`
      is not, or when both agree on SOS and `a`'s score is not higher. */
  predicate RoomBefore(a: Room, b: Room) {
    if IsSos(a) != IsSos(b) then IsSos(a) else ListScore(a) <= ListScore(b)
  }

  lemma RoomBeforeIsPreorder()
    ensures TotalPreorder(RoomBefore)
  {
  }

  /** After sorting, every SOS room comes before every other room, and each of
      the two groups is in ascending score order. */
  lemma SortedRoomsOrder(rooms: seq<Room>)
    requires Sorted(rooms, RoomBefore)
    ensures forall i, j :: 0 <= i < j < |rooms| && IsSos(rooms[j]) ==> IsSos(rooms[i])
    ensures forall i, j :: 0 <= i < j < |rooms| && IsSos(rooms[i]) == IsSos(rooms[j]) ==>
      ListScore(rooms[i]) <= ListScore(rooms[j])
  {
    forall i, j | 0 <= i < j < |rooms|
      ensures RoomBefore(rooms[i], rooms[j])
    {
    }
  }

  /** `sortedRooms`: the rooms sorted in place with the comparator. */
  method SortRooms(rooms: seq<Room>) returns (sorted: seq<Room>)
    ensures Sorted(sorted, RoomBefore)
    ensures multiset(sorted) == multiset(rooms)
  {
    RoomBeforeIsPreorder();
    sorted := SortedCopy(rooms, RoomBefore);
  }

  predicate IsAlert(room: Room) { ListScore(room) < 7.0 || IsSos(room) }

  /** `alertRooms`: the sorted rooms with a score below 7 or an SOS, in order. */
  function AlertRooms(sorted: seq<Room>): (r: seq<Room>)
    ensures IsSubsequence(r, sorted)
    ensures forall x :: x in r <==> x in sorted && (ListScore(x) < 7.0 || IsSos(x))
    ensures forall x :: multiset(r)[x] == if ListScore(x) < 7.0 || IsSos(x) then multiset(sorted)[x] else 0
  {
    FilterMultiset(sorted, IsAlert);
    FilterIsSubsequence(sorted, IsAlert);
    Filter(sorted, IsAlert)
  }

  /** A card drawn in the danger or caution style belongs to the alert list,
      unless its score is a stored null, which the card reads as 0 and the list as 10. */
  lemma StyledCardsAreAlerts(room: Room)
    requires !ScoreOf(room).Null?
    ensures StyleOf(room) != Calm <==> IsAlert(room)
  {
  }

  /** The geocoder's answer to one request. */
  datatype GeocodeReply =
    | Answer(status: string, firstAddress: Option<string>)   // `data.status`, `data.results[0].formatted_address`
    | NetworkError

  const AddressUnavailable: string := "Address unavailable"

  function CacheKey(lat: string, lng: string): string { lat + "," + lng }

  /** The module-level `addressCache` and `getAddressFromCoords`. */
  class AddressCache {
    var entries: map<string, string>

    constructor()
      ensures entries == map[]
    {
      entries := map[];
    }

    /** A non-empty cached address is returned without asking the geocoder;
        otherwise `reply` is the geocoder's answer, and only a successful one is
        cached. */
    method Lookup(lat: string, lng: string, reply: GeocodeReply) returns (address: string, fetched: bool)
      modifies this
      ensures var key := CacheKey(lat, lng);
        fetched <==> !(key in old(entries) && old(entries)[key] != "")
      ensures !fetched ==> address == old(entries)[CacheKey(lat, lng)] && entries == old(entries)
      ensures fetched && reply.Answer? && reply.status == "OK" && reply.firstAddress.Some? ==>
        address == reply.firstAddress.value
        && entries == old(entries)[CacheKey(lat, lng) := reply.firstAddress.value]
      ensures fetched && !(reply.Answer? && reply.status == "OK" && reply.firstAddress.Some?) ==>
        address == AddressUnavailable && entries == old(entries)
    {
      var key := CacheKey(lat, lng);
      if key in entries && entries[key] != "" {
        return entries[key], false;
      }
      fetched := true;
      if reply.Answer? && reply.status == "OK" && reply.firstAddress.Some? {
        address := reply.firstAddress.value;
        entries := entries[key := address];
      } else {
        address := AddressUnavailable;
      }
    }
  }
}
