/** The waste-report duplicate check: before a new report is filed, the reports
    already stored under the same geohash are scanned for the nearest one within
    6 metres of the new location. */
module WasteCheck {
  import opened Wrappers

  const DuplicateRadiusMeters: real := 6.0

  /** A coordinate field; `0` and absence are both falsy. */
  predicate Truthy(v: Option<real>) { v.Some? && v.value != 0.0 }

  datatype Location = Location(lat: Option<real>, lng: Option<real>)

  predicate Usable(loc: Option<Location>) {
    loc.Some? && Truthy(loc.value.lat) && Truthy(loc.value.lng)
  }

  /** The request body. */
  datatype CheckRequest = CheckRequest(location: Option<Location>, geohash: Option<string>)

  predicate ValidRequest(req: CheckRequest) {
    Usable(req.location) && req.geohash.Some? && req.geohash.value != ""
  }

  /** One stored report, keyed by the reporting user's id. */
  datatype WasteDoc = WasteDoc(id: string, location: Option<Location>, imageUrl: Option<string>, email: Option<string>)

  /** The reports query: the documents in snapshot order, or a failure. */
  datatype QueryReply = Docs(docs: seq<WasteDoc>) | QueryFailed(message: string)

  /** `getDistanceInMeters(lat1, lng1, lat2, lng2)`, the haversine distance. */
  type DistanceFn = (real, real, real, real) -> real

  /** The `data` of a duplicate answer. */
  datatype Duplicate = Duplicate(imageUrl: Option<string>, geohash: string, userId: string, localityEmail: Option<string>)

  datatype CheckResponse =
    | BadRequest                        // 400 "Invalid location or geohash data"
    | NoDuplicate                       // 200, `duplicateFound: false`
    | DuplicateFound(data: Duplicate)   // 200, `duplicateFound: true`
    | ServerError(message: string)      // 500 "Internal Server Error"
  {
    function Status(): int {
      match this
      case BadRequest => 400
      case ServerError(_) => 500
      case _ => 200
    }
  }

  function DistanceTo(req: CheckRequest, doc: WasteDoc, dist: DistanceFn): real
    requires ValidRequest(req) && Usable(doc.location)
  {
    dist(req.location.value.lat.value, req.location.value.lng.value,
         doc.location.value.lat.value, doc.location.value.lng.value)
  }

  /** A stored report with a usable location within 6 metres. */
  predicate Eligible(req: CheckRequest, doc: WasteDoc, dist: DistanceFn)
    requires ValidRequest(req)
  {
    Usable(doc.location) && DistanceTo(req, doc, dist) <= DuplicateRadiusMeters
  }

  function MatchOf(req: CheckRequest, doc: WasteDoc): Duplicate
    requires ValidRequest(req)
  {
    Duplicate(doc.imageUrl, req.geohash.value, doc.id, doc.email)
  }

  /** Report `k` is the one the scan keeps: eligible, no farther than any other
      eligible report, and strictly nearer than every eligible report before it. */
  predicate IsClosest(req: CheckRequest, docs: seq<WasteDoc>, dist: DistanceFn, k: nat)
    requires ValidRequest(req)
  {
    && k < |docs| && Eligible(req, docs[k], dist)
    && (forall j :: 0 <= j < |docs| && Eligible(req, docs[j], dist) ==>
          DistanceTo(req, docs[k], dist) <= DistanceTo(req, docs[j], dist))
    && (forall j :: 0 <= j < k && Eligible(req, docs[j], dist) ==>
          DistanceTo(req, docs[j], dist) > DistanceTo(req, docs[k], dist))
  }

  /** `wasteCheck`. */
  method CheckDuplicate(req: CheckRequest, reply: QueryReply, dist: DistanceFn) returns (resp: CheckResponse)
    ensures !ValidRequest(req) ==> resp == BadRequest
    ensures ValidRequest(req) && reply.QueryFailed? ==> resp == ServerError(reply.message)
    ensures ValidRequest(req) && reply.Docs? ==>
      (resp == NoDuplicate <==> forall j :: 0 <= j < |reply.docs| ==> !Eligible(req, reply.docs[j], dist))
    ensures ValidRequest(req) && reply.Docs? && resp.DuplicateFound? ==>
      exists k: nat :: IsClosest(req, reply.docs, dist, k) && resp.data == MatchOf(req, reply.docs[k])
    ensures ValidRequest(req) && reply.Docs? ==> resp == NoDuplicate || resp.DuplicateFound?
  {
    if !ValidRequest(req) {
      return BadRequest;
    }
    if reply.QueryFailed? {
      return ServerError(reply.message);
    }
    var docs := reply.docs;
    if |docs| == 0 {
      return NoDuplicate;
    }
    var closest: Option<Duplicate> := None;
    var minDistance: Option<real> := None;   // None stands for Infinity
    ghost var best: nat := 0;
    var i := 0;
    while i < |docs|
      invariant 0 <= i <= |docs|
      invariant closest.None? <==> forall j :: 0 <= j < i ==> !Eligible(req, docs[j], dist)
      invariant closest.None? <==> minDistance.None?
      invariant closest.Some? ==>
        && best < i && Eligible(req, docs[best], dist)
        && closest.value == MatchOf(req, docs[best])
        && minDistance.value == DistanceTo(req, docs[best], dist)
        && (forall j :: 0 <= j < i && Eligible(req, docs[j], dist) ==>
              DistanceTo(req, docs[best], dist) <= DistanceTo(req, docs[j], dist))
        && (forall j :: 0 <= j < best && Eligible(req, docs[j], dist) ==>
              DistanceTo(req, docs[j], dist) > DistanceTo(req, docs[best], dist))
    {
      var doc := docs[i];
      if Usable(doc.location) {
        var distance := DistanceTo(req, doc, dist);
        if distance <= DuplicateRadiusMeters && (minDistance.None? || distance < minDistance.value) {
          minDistance := Some(distance);
          closest := Some(MatchOf(req, doc));
          best := i;
        }
      }
      i := i + 1;
    }
    if closest.Some? {
      assert IsClosest(req, docs, dist, best);
      resp := DuplicateFound(closest.value);
    } else {
      resp := NoDuplicate;
    }
  }
}
