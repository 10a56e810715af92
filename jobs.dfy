/** The local-jobs routes: an employer posts a job (which opens its chat), nearby
    open jobs are listed by geohash cell, workers join a job's chat, and the
    employer closes the job. Firestore is an in-memory store: the jobs, numbered
    by creation (the number stands for the document id), and chats keyed by job
    number. The order in which a query answers is the store's, so it comes in as
    a parameter. */
module Jobs {
  import opened Wrappers
  import opened Seqs
  import opened Sorting

  /** `ngeohash.encode(lat, lng, 4)`. */
  type GeohashEncoder = (real, real) -> string
  /** `ngeohash.neighbors(hash)`: the eight surrounding cells. */
  type GeohashNeighbors = string -> seq<string>

  datatype Location = Location(lat: Option<real>, lng: Option<real>)   // `Number(...)`, absent when not finite

  datatype Job = Job(title: string, description: string, amount: real, time: string, geohash: string,
                     location: Location, employerId: string, status: string, createdAt: int)

  datatype JobChat = JobChat(participants: seq<string>, closed: bool, createdAt: int)

  /** The `amount` of the request body as sent: a JSON number, or text together
      with what `Number(text)` makes of it. */
  datatype Amount = NumberAmount(x: real) | TextAmount(text: string, asNumber: real)

  /** `!!amount`: a number is falsy when it is 0, text when it is empty. */
  predicate AmountTruthy(a: Amount) {
    match a
    case NumberAmount(x) => x != 0.0
    case TextAmount(text, _) => text != ""
  }

  /** `Number(amount)`, the stored amount. */
  function StoredAmount(a: Amount): real {
    match a
    case NumberAmount(x) => x
    case TextAmount(_, asNumber) => asNumber
  }

  /** The request body of `POST /`; an absent or null field is `None`. */
  datatype JobForm = JobForm(title: Option<string>, description: Option<string>, amount: Option<Amount>,
                             time: Option<string>, location: Option<Location>)

  datatype JobResponse =
    | JobCreated(id: nat)
    | BadRequest(message: string)     // 400
    | Unauthorized                    // 401
    | Forbidden(message: string)      // 403
    | NotFound(message: string)       // 404
    | Success
    | JobList(jobs: seq<(nat, Job)>)
    | FailedAfterJobClosed            // the chat update throws after the job was closed

  predicate TruthyText(s: Option<string>) { s.Some? && s.value != "" }

  /** Every required field is present and truthy (the number 0 is missing, the text "0" is not). */
  predicate FieldsPresent(f: JobForm) {
    TruthyText(f.title) && TruthyText(f.description) && f.amount.Some? && AmountTruthy(f.amount.value)
    && TruthyText(f.time) && f.location.Some?
  }

  predicate FiniteLocation(loc: Location) { loc.lat.Some? && loc.lng.Some? }

  /** The jobs with their numbers, in store order. */
  function Indexed(jobs: seq<Job>): (r: seq<(nat, Job)>)
    ensures |r| == |jobs| && forall k :: 0 <= k < |r| ==> r[k] == (k, jobs[k])
  {
    seq(|jobs|, k requires 0 <= k < |jobs| => (k, jobs[k]))
  }

  predicate OpenIn(p: (nat, Job), hash: string) { p.1.status == "OPEN" && p.1.geohash == hash }

  /** One query `geohash == hash && status == "OPEN"`, in store order. */
  function OpenWithHash(jobs: seq<Job>, hash: string): seq<(nat, Job)> {
    Filter(Indexed(jobs), (p: (nat, Job)) => OpenIn(p, hash))
  }

  /** The open jobs of every cell in `hashes`, cell after cell. */
  function NearbyJobs(jobs: seq<Job>, hashes: seq<string>): seq<(nat, Job)>
    decreases |hashes|
  {
    if hashes == [] then []
    else NearbyJobs(jobs, hashes[..|hashes| - 1]) + OpenWithHash(jobs, hashes[|hashes| - 1])
  }

  /** The store's answer to the query `geohash == hash && status == "OPEN"`, in
      the order it chooses (Firestore answers in document-id order, and `add()`
      ids are random). */
  type CellQuery = string -> seq<(nat, Job)>

  /** The store answers the query for `hash` with the open jobs of that cell,
      each once, in some order. */
  predicate AnswersCell(jobs: seq<Job>, query: CellQuery, hash: string) {
    multiset(query(hash)) == multiset(OpenWithHash(jobs, hash))
  }

  /** The answers to the queries for `hashes`, concatenated in hash order. */
  function Gathered(query: CellQuery, hashes: seq<string>): seq<(nat, Job)>
    decreases |hashes|
  {
    if hashes == [] then []
    else Gathered(query, hashes[..|hashes| - 1]) + query(hashes[|hashes| - 1])
  }

  /** Whatever order the store answers each cell in, the gathered answers hold
      the nearby jobs, each as often. */
  lemma {:induction false} GatheredPermutesNearby(jobs: seq<Job>, query: CellQuery, hashes: seq<string>)
    requires forall h :: h in hashes ==> AnswersCell(jobs, query, h)
    ensures multiset(Gathered(query, hashes)) == multiset(NearbyJobs(jobs, hashes))
    decreases |hashes|
  {
    if hashes != [] {
      var init := hashes[..|hashes| - 1];
      assert forall h :: h in init ==> h in hashes;
      assert AnswersCell(jobs, query, hashes[|hashes| - 1]);
      GatheredPermutesNearby(jobs, query, init);
    }
  }

  /** The nearby listing holds exactly the open jobs whose cell is one of the hashes. */
  lemma {:induction false} NearbyJobsExact(jobs: seq<Job>, hashes: seq<string>, p: (nat, Job))
    ensures p in NearbyJobs(jobs, hashes) <==>
      p.0 < |jobs| && p.1 == jobs[p.0] && p.1.status == "OPEN" && p.1.geohash in hashes
    decreases |hashes|
  {
    if hashes != [] {
      var init := hashes[..|hashes| - 1];
      var last := hashes[|hashes| - 1];
      NearbyJobsExact(jobs, init, p);
      assert hashes == init + [last];
      assert p in OpenWithHash(jobs, last) <==> p in Indexed(jobs) && OpenIn(p, last);
      if p in Indexed(jobs) {
        var k :| 0 <= k < |jobs| && Indexed(jobs)[k] == p;
      }
      if p.0 < |jobs| && p.1 == jobs[p.0] {
        assert Indexed(jobs)[p.0] == p;
      }
    }
  }

  /** The employer's own jobs (`GET /my`): newest first. */
  predicate NewerFirst(a: (nat, Job), b: (nat, Job)) { a.1.createdAt >= b.1.createdAt }

  class JobStore {
    var jobs: seq<Job>
    var chats: map<nat, JobChat>

    constructor()
      ensures jobs == [] && chats == map[]
    {
      jobs := [];
      chats := map[];
    }

    /** `POST /`: validate, add the job as OPEN for the caller, and open its chat
        with the caller as the only participant. */
    method CreateJob(caller: string, form: JobForm, encode: GeohashEncoder, now: int) returns (resp: JobResponse)
      modifies this
      ensures !FieldsPresent(form) ==>
        resp == BadRequest("Missing fields") && jobs == old(jobs) && chats == old(chats)
      ensures FieldsPresent(form) && !FiniteLocation(form.location.value) ==>
        resp == BadRequest("Invalid location") && jobs == old(jobs) && chats == old(chats)
      ensures FieldsPresent(form) && FiniteLocation(form.location.value) ==>
        var loc := form.location.value;
        && resp == JobCreated(|old(jobs)|)
        && jobs == old(jobs) + [Job(form.title.value, form.description.value, StoredAmount(form.amount.value),
                                    form.time.value, encode(loc.lat.value, loc.lng.value), loc, caller, "OPEN", now)]
        && chats == old(chats)[|old(jobs)| := JobChat([caller], false, now)]
    {
      if !FieldsPresent(form) {
        return BadRequest("Missing fields");
      }
      var loc := form.location.value;
      if loc.lat.None? || loc.lng.None? {
        return BadRequest("Invalid location");
      }
      var geohash := encode(loc.lat.value, loc.lng.value);
      var id := |jobs|;
      jobs := jobs + [Job(form.title.value, form.description.value, StoredAmount(form.amount.value),
                          form.time.value, geohash, loc, caller, "OPEN", now)];
      chats := chats[id := JobChat([caller], false, now)];
      resp := JobCreated(id);
    }

    /** `GET /nearby`: the open jobs in the caller's cell and its eight
        neighbours, cell by cell, each cell in the order the store answers. */
    method Nearby(lat: Option<real>, lng: Option<real>, encode: GeohashEncoder, neighbors: GeohashNeighbors,
                  query: CellQuery)
      returns (resp: JobResponse)
      ensures lat.None? || lng.None? ==> resp == BadRequest("Invalid coordinates")
      ensures lat.Some? && lng.Some? ==>
        var hashes := [encode(lat.value, lng.value)] + neighbors(encode(lat.value, lng.value));
        && resp == JobList(Gathered(query, hashes))
        && ((forall h :: h in hashes ==> AnswersCell(jobs, query, h)) ==>
              multiset(resp.jobs) == multiset(NearbyJobs(jobs, hashes)))
    {
      if lat.None? || lng.None? {
        return BadRequest("Invalid coordinates");
      }
      var center := encode(lat.value, lng.value);
      var hashes := [center] + neighbors(center);
      var found: seq<(nat, Job)> := [];
      var h := 0;
      while h < |hashes|
        invariant 0 <= h <= |hashes|
        invariant found == Gathered(query, hashes[..h])
      {
        var snap := query(hashes[h]);
        ghost var before := found;
        var k := 0;
        while k < |snap|
          invariant 0 <= k <= |snap|
          invariant found == before + snap[..k]
        {
          assert snap[..k + 1] == snap[..k] + [snap[k]];
          found := found + [snap[k]];
          k := k + 1;
        }
        assert snap[..k] == snap;
        assert hashes[..h + 1][..h] == hashes[..h];
        h := h + 1;
      }
      assert hashes[..h] == hashes;
      resp := JobList(found);
      if forall h :: h in hashes ==> AnswersCell(jobs, query, h) {
        GatheredPermutesNearby(jobs, query, hashes);
      }
    }

    /** `GET /my`: the caller's jobs, newest first. */
    method MyJobs(caller: string) returns (mine: seq<(nat, Job)>)
      ensures Sorted(mine, NewerFirst)
      ensures multiset(mine) == multiset(Filter(Indexed(jobs), (p: (nat, Job)) => p.1.employerId == caller))
    {
      mine := SortedCopy(Filter(Indexed(jobs), (p: (nat, Job)) => p.1.employerId == caller), NewerFirst);
    }

    /** `POST /:jobId/join`: add the caller to an open job's chat, once. */
    method Join(caller: Option<string>, jobId: nat) returns (resp: JobResponse)
      modifies this
      ensures jobs == old(jobs)
      ensures !TruthyText(caller) ==> resp == Unauthorized && chats == old(chats)
      ensures TruthyText(caller) && (jobId >= |jobs| || jobId !in old(chats)) ==>
        resp == NotFound("Job not found") && chats == old(chats)
      ensures TruthyText(caller) && jobId < |jobs| && jobId in old(chats) && jobs[jobId].status == "CLOSED" ==>
        resp == Forbidden("Job closed") && chats == old(chats)
      ensures TruthyText(caller) && jobId < |jobs| && jobId in old(chats) && jobs[jobId].status != "CLOSED" ==>
        var c := old(chats)[jobId];
        && resp == Success
        && chats == old(chats)[jobId := c.(participants :=
             if caller.value in c.participants then c.participants else c.participants + [caller.value])]
    {
      if !TruthyText(caller) {
        return Unauthorized;
      }
      if jobId >= |jobs| || jobId !in chats {
        return NotFound("Job not found");
      }
      if jobs[jobId].status == "CLOSED" {
        return Forbidden("Job closed");
      }
      var c := chats[jobId];
      var participants := if caller.value in c.participants then c.participants else c.participants + [caller.value];
      chats := chats[jobId := c.(participants := participants)];
      resp := Success;
    }

    /** `PATCH /:jobId/close`: only the employer may close; the job becomes
        CLOSED and then its chat is closed. */
    method Close(caller: string, jobId: nat) returns (resp: JobResponse)
      modifies this
      ensures jobId >= |old(jobs)| ==> resp == NotFound("Job not found") && jobs == old(jobs) && chats == old(chats)
      ensures jobId < |old(jobs)| && old(jobs)[jobId].employerId != caller ==>
        resp == Forbidden("Not allowed") && jobs == old(jobs) && chats == old(chats)
      ensures jobId < |old(jobs)| && old(jobs)[jobId].employerId == caller ==>
        && jobs == old(jobs)[jobId := old(jobs)[jobId].(status := "CLOSED")]
        && (jobId in old(chats) ==>
              resp == Success && chats == old(chats)[jobId := old(chats)[jobId].(closed := true)])
        && (jobId !in old(chats) ==> resp == FailedAfterJobClosed && chats == old(chats))
    {
      if jobId >= |jobs| {
        return NotFound("Job not found");
      }
      if jobs[jobId].employerId != caller {
        return Forbidden("Not allowed");
      }
      jobs := jobs[jobId := jobs[jobId].(status := "CLOSED")];
      if jobId !in chats {
        return FailedAfterJobClosed;
      }
      chats := chats[jobId := chats[jobId].(closed := true)];
      resp := Success;
    }
  }

  /** Joining never duplicates a participant: a participant list without
      repeats keeps none after a join. */
  lemma JoinKeepsParticipantsDistinct(participants: seq<string>, caller: string)
    requires forall i, j :: 0 <= i < j < |participants| ==> participants[i] != participants[j]
    ensures var r := if caller in participants then participants else participants + [caller];
      && caller in r
      && (forall i, j :: 0 <= i < j < |r| ==> r[i] != r[j])
  {
  }

  /** A closed job can no longer be joined, and only its employer can close it. */
  method CloseThenJoin(store: JobStore, employer: string, worker: string, jobId: nat)
    returns (closed: JobResponse, joined: JobResponse)
    requires jobId < |store.jobs| && jobId in store.chats && store.jobs[jobId].employerId == employer
    requires worker != ""
    modifies store
    ensures closed == Success
    ensures joined == Forbidden("Job closed")
    ensures jobId in store.chats && store.chats[jobId].participants == old(store.chats[jobId].participants)
  {
    closed := store.Close(employer, jobId);
    joined := store.Join(Some(worker), jobId);
  }
}
