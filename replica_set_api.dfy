/** The registry queries behind the replica-set routes: the filtered and
    paginated listing, the job-status lookup, the connection lookup by
    replica-set name, the validation preview, the destroy stub and the
    version table. The HTTP layer (status codes, JSON bodies, logging) is
    reduced to a `Result` whose failure is the route's error detail. Each
    route that projects registry records into status responses takes the
    declared type of the response's instance fields. */
module ReplicaSetApi {
  import opened Wrappers
  import opened Strings
  import opened ReplicaSetModel
  import opened MongoValidator
  import opened TerraformRender
  import opened Orchestrator

  /** A `404 Not Found` or a `500 Internal Server Error` answer, with its
      detail text. */
  datatype ApiError = NotFound(detail: string) | InternalError(detail: string)

  /** The 500 answer a route gives for an exception it catches. */
  function ServerError(e: string): ApiError {
    InternalError("서버 내부 오류: " + e)
  }

  // ---- Listing ----

  /** The listing filter: an absent or empty filter lets every job through,
      otherwise the job's status value must equal it. */
  predicate Matches(filter: Option<string>, rec: JobRecord) {
    filter.None? || filter.value == "" || StatusValue(rec.status) == filter.value
  }

  /** The jobs of `order` the filter lets through, in registry order. */
  function Listed(jobs: map<string, JobRecord>, order: seq<string>, filter: Option<string>): seq<JobRecord> {
    if order == [] then []
    else
      var rest := Listed(jobs, order[..|order| - 1], filter);
      var id := order[|order| - 1];
      if id in jobs && Matches(filter, jobs[id]) then rest + [jobs[id]] else rest
  }

  /** A job is listed exactly when it is registered under some id of the
      registry order and passes the filter. */
  lemma {:induction false} ListedMembership(jobs: map<string, JobRecord>, order: seq<string>, filter: Option<string>,
                                            rec: JobRecord)
    ensures rec in Listed(jobs, order, filter)
            <==> exists i :: 0 <= i < |order| && order[i] in jobs && jobs[order[i]] == rec && Matches(filter, rec)
  {
    if order != [] {
      var init := order[..|order| - 1];
      ListedMembership(jobs, init, filter, rec);
      if exists i :: 0 <= i < |order| && order[i] in jobs && jobs[order[i]] == rec && Matches(filter, rec) {
        var i :| 0 <= i < |order| && order[i] in jobs && jobs[order[i]] == rec && Matches(filter, rec);
        if i < |order| - 1 {
          assert init[i] == order[i];
        }
      } else {
        forall i | 0 <= i < |init|
          ensures !(init[i] in jobs && jobs[init[i]] == rec && Matches(filter, rec))
        {
          assert init[i] == order[i];
        }
      }
    }
  }

  /** With a non-empty filter every listed job has exactly that status. */
  lemma {:induction false} ListedHaveStatus(jobs: map<string, JobRecord>, order: seq<string>, filter: string)
    requires filter != ""
    ensures forall k :: 0 <= k < |Listed(jobs, order, Some(filter))| ==>
              StatusValue(Listed(jobs, order, Some(filter))[k].status) == filter
  {
    if order != [] {
      ListedHaveStatus(jobs, order[..|order| - 1], filter);
    }
  }

  /** Without a filter every registered job is listed, in registry order. */
  lemma {:induction false} ListedUnfiltered(jobs: map<string, JobRecord>, order: seq<string>, filter: Option<string>)
    requires filter.None? || filter == Some("")
    requires forall i :: 0 <= i < |order| ==> order[i] in jobs
    ensures Listed(jobs, order, filter) == seq(|order|, i requires 0 <= i < |order| => jobs[order[i]])
  {
    if order != [] {
      ListedUnfiltered(jobs, order[..|order| - 1], filter);
    }
  }

  /** One more id of the order adds its job when registered and let
      through. */
  lemma ListedStep(jobs: map<string, JobRecord>, order: seq<string>, filter: Option<string>, i: nat)
    requires i < |order|
    ensures Listed(jobs, order[..i + 1], filter)
            == Listed(jobs, order[..i], filter)
               + (if order[i] in jobs && Matches(filter, jobs[order[i]]) then [jobs[order[i]]] else [])
  {
    assert order[..i + 1][..i] == order[..i];
  }

  /** Some registered job of the order cannot be projected into a status
      response. */
  predicate SomeUnprojectable(fieldType: InstanceFieldType, jobs: map<string, JobRecord>, order: seq<string>) {
    exists i :: 0 <= i < |order| && order[i] in jobs && StatusResponse(fieldType, jobs[order[i]]).Failure?
  }

  /** The listing's answer: the filtered count and one page. */
  datatype Listing = Listing(totalCount: nat, replicaSets: seq<JobRecord>)

  /** The listing route: every registered job is projected, those the
      filter lets through are kept, then the page `[offset:offset+limit]`
      of the filtered list is taken with Python's slice rules; the count is
      of the filtered list before paging. A projection that raises, for any
      registered job whether the filter keeps it or not, makes the route
      answer 500. */
  method ListReplicaSets(fieldType: InstanceFieldType, svc: TerraformService, statusFilter: Option<string>,
                         limit: int, offset: int)
    returns (r: Result<Listing, ApiError>)
    requires svc.Valid()
    ensures r.Failure? <==> SomeUnprojectable(fieldType, svc.jobStatus, svc.jobOrder)
    ensures r.Failure? ==> r.error == ServerError(InstanceFieldError)
    ensures r.Success? ==>
              var all := Listed(svc.jobStatus, svc.jobOrder, statusFilter);
              r.value == Listing(|all|, PySlice(all, offset, offset + limit))
  {
    var all: seq<JobRecord> := [];
    var i := 0;
    while i < |svc.jobOrder|
      invariant 0 <= i <= |svc.jobOrder|
      invariant all == Listed(svc.jobStatus, svc.jobOrder[..i], statusFilter)
      invariant forall k :: 0 <= k < i ==> svc.jobOrder[k] in svc.jobStatus
                                           && StatusResponse(fieldType, svc.jobStatus[svc.jobOrder[k]]).Success?
    {
      var id := svc.jobOrder[i];
      assert id in svc.jobStatus;
      var job := svc.GetJobStatus(fieldType, id);
      if job.Failure? {
        return Failure(ServerError(job.error));
      }
      ListedStep(svc.jobStatus, svc.jobOrder, statusFilter, i);
      if job.value.Some? && Matches(statusFilter, job.value.value) {
        all := all + [job.value.value];
      }
      i := i + 1;
    }
    assert svc.jobOrder[..i] == svc.jobOrder;
    r := Success(Listing(|all|, PySlice(all, offset, offset + limit)));
  }

  // ---- Job status ----

  /** The job-status route: the projected registry entry, not-found naming
      the id, or a 500 answer when the projection raises. */
  function JobStatusRoute(fieldType: InstanceFieldType, svc: TerraformService, jobId: string)
    : (r: Result<JobRecord, ApiError>)
    requires svc.Valid()
    reads svc
    ensures r.Success? <==> jobId in svc.jobStatus && StatusResponse(fieldType, svc.jobStatus[jobId]).Success?
    ensures r.Success? ==> r.value == svc.jobStatus[jobId]
    ensures r == Failure(NotFound("작업 ID를 찾을 수 없습니다: " + jobId)) <==> jobId !in svc.jobStatus
    ensures r.Failure? && jobId in svc.jobStatus ==> r.error == ServerError(InstanceFieldError)
  {
    match svc.GetJobStatus(fieldType, jobId)
    case Failure(e) => Failure(ServerError(e))
    case Success(None) => Failure(NotFound("작업 ID를 찾을 수 없습니다: " + jobId))
    case Success(Some(rec)) => Success(rec)
  }

  // ---- Connection lookup ----

  /** What the connection route returns: the name asked for and the
      recorded topology (connection string, primary, secondaries and
      monitoring addresses), absent when the workflow never recorded one. */
  datatype ConnectionView = ConnectionView(replicaSetName: string, topology: Option<ConnectionInfo>)

  predicate NamedAt(jobs: map<string, JobRecord>, order: seq<string>, i: nat, name: string)
    requires i < |order|
  {
    order[i] in jobs && jobs[order[i]].replicaSetName == name
  }

  /** The position of the first job of the registry order that carries
      the name. */
  function FirstMatch(jobs: map<string, JobRecord>, order: seq<string>, name: string): (r: Option<nat>)
    ensures r.Some? ==> r.value < |order| && NamedAt(jobs, order, r.value, name)
                        && forall k :: 0 <= k < r.value ==> !NamedAt(jobs, order, k, name)
    ensures r.None? ==> forall k :: 0 <= k < |order| ==> !NamedAt(jobs, order, k, name)
  {
    if order == [] then None
    else if order[0] in jobs && jobs[order[0]].replicaSetName == name then Some(0)
    else
      match FirstMatch(jobs, order[1..], name)
      case None =>
        assert forall k :: 1 <= k < |order| ==> NamedAt(jobs, order, k, name) == NamedAt(jobs, order[1..], k - 1, name);
        None
      case Some(k) =>
        assert forall j :: 1 <= j < |order| ==> NamedAt(jobs, order, j, name) == NamedAt(jobs, order[1..], j - 1, name);
        Some(k + 1)
  }

  function NotRunning(name: string): ApiError {
    NotFound("실행 중인 ReplicaSet을 찾을 수 없습니다: " + name)
  }

  /** Only the first job carrying the name is consulted: its projection
      must succeed and it must be ready. */
  function ConnectionLookup(fieldType: InstanceFieldType, jobs: map<string, JobRecord>, order: seq<string>, name: string)
    : Result<ConnectionView, ApiError>
  {
    match FirstMatch(jobs, order, name)
    case None => Failure(NotRunning(name))
    case Some(k) =>
      match StatusResponse(fieldType, jobs[order[k]])
      case Failure(e) => Failure(ServerError(e))
      case Success(rec) =>
        if rec.status != Ready then Failure(NotRunning(name))
        else Success(ConnectionView(name, rec.topology))
  }

  /** The connection route: scan the registry in order, stop at the first
      job with the name, and answer with its topology when it is ready. */
  method GetConnectionInfo(fieldType: InstanceFieldType, svc: TerraformService, name: string)
    returns (r: Result<ConnectionView, ApiError>)
    requires svc.Valid()
    ensures r == ConnectionLookup(fieldType, svc.jobStatus, svc.jobOrder, name)
  {
    var target: Option<JobRecord> := None;
    var i := 0;
    while i < |svc.jobOrder|
      invariant 0 <= i <= |svc.jobOrder|
      invariant forall k :: 0 <= k < i ==> !NamedAt(svc.jobStatus, svc.jobOrder, k, name)
      invariant target.None?
    {
      var id := svc.jobOrder[i];
      if svc.jobStatus[id].replicaSetName == name {
        assert NamedAt(svc.jobStatus, svc.jobOrder, i, name);
        assert FirstMatch(svc.jobStatus, svc.jobOrder, name) == Some(i);
        var t := svc.GetJobStatus(fieldType, id);
        if t.Failure? {
          return Failure(ServerError(t.error));
        }
        target := t.value;
        break;
      }
      i := i + 1;
    }
    if target.None? || target.value.status != Ready {
      return Failure(NotRunning(name));
    }
    r := Success(ConnectionView(name, target.value.topology));
  }

  /** The position `i` holds the first job carrying the name. */
  predicate FirstNamed(jobs: map<string, JobRecord>, order: seq<string>, i: int, name: string) {
    0 <= i < |order| && NamedAt(jobs, order, i, name) && forall k :: 0 <= k < i ==> !NamedAt(jobs, order, k, name)
  }

  /** The answer is a connection exactly when the first job carrying the
      name can be projected and is ready; a ready job further on does not
      count. It is a 500 answer exactly when that first job cannot be
      projected, and not-running otherwise. */
  lemma ConnectionFoundIff(fieldType: InstanceFieldType, jobs: map<string, JobRecord>, order: seq<string>, name: string)
    ensures var r := ConnectionLookup(fieldType, jobs, order, name);
            && (r.Success? <==> exists i :: FirstNamed(jobs, order, i, name) && jobs[order[i]].status == Ready
                                            && StatusResponse(fieldType, jobs[order[i]]).Success?)
            && (r.Success? ==> r.value.replicaSetName == name)
            && (r == Failure(ServerError(InstanceFieldError))
                <==> exists i :: FirstNamed(jobs, order, i, name) && StatusResponse(fieldType, jobs[order[i]]).Failure?)
            && (r.Failure? ==> r.error == NotRunning(name) || r.error == ServerError(InstanceFieldError))
  {
    var r := FirstMatch(jobs, order, name);
    if exists i :: FirstNamed(jobs, order, i, name) {
      var i :| FirstNamed(jobs, order, i, name);
      assert r == Some(i);
    }
  }

  /** As written, when every ready job carries the topology the workflow
      stored with it, the connection route never returns connection
      information: its answer is a 500 or not-running. */
  lemma ReadyJobsNeverConnectAsWritten(jobs: map<string, JobRecord>, order: seq<string>, name: string)
    requires forall id :: id in jobs && jobs[id].status == Ready ==> jobs[id].topology.Some?
    ensures ConnectionLookup(StrValues, jobs, order, name).Failure?
  {
    ConnectionFoundIff(StrValues, jobs, order, name);
  }

  /** A failed job registered first under a name hides a ready job
      registered later under the same name. */
  lemma EarlierFailedJobHidesReadyOne(fieldType: InstanceFieldType, a: JobRecord, b: JobRecord)
    requires a.replicaSetName == "rs" && b.replicaSetName == "rs"
    requires a.status == Failed && b.status == Ready
    ensures ConnectionLookup(fieldType, map["job-a" := a, "job-b" := b], ["job-a", "job-b"], "rs")
            == if StatusResponse(fieldType, a).Success? then Failure(NotRunning("rs")) else Failure(ServerError(InstanceFieldError))
  {
    var jobs := map["job-a" := a, "job-b" := b];
    assert NamedAt(jobs, ["job-a", "job-b"], 0, "rs");
    assert FirstMatch(jobs, ["job-a", "job-b"], "rs") == Some(0);
  }

  // ---- Validation preview ----

  /** The validation preview: the validator's verdict and messages, a cost
      of 50 USD a month per member and the job's duration estimate. */
  datatype ValidationReport = ValidationReport(
    valid: bool,
    messages: seq<string>,
    monthlyUsd: int,
    currency: string,
    estimatedCompletionMinutes: int)

  function ValidationReportFor(c: ReplicaSetConfig): (r: ValidationReport)
    ensures r.valid <==> Errors(c) == []
    ensures r.messages == Messages(c)
    ensures r.monthlyUsd == 50 * |c.members| && r.currency == "USD"
    ensures r.estimatedCompletionMinutes == 10 + 2 * |c.members|
  {
    ValidationReport(Errors(c) == [], Messages(c), |c.members| * 50, "USD", 10 + |c.members| * 2)
  }

  method ValidateConfiguration(request: ReplicaSetCreateRequest) returns (report: ValidationReport)
    ensures report == ValidationReportFor(request.config)
  {
    var c := request.config;
    var ok, messages := ValidateMongodbVersion(c);
    report := ValidationReport(ok, messages, |c.members| * 50, "USD", 10 + |c.members| * 2);
  }

  /** The preview agrees with a creation request for the same
      configuration: it is valid exactly when the request would register
      a pending job, and it announces that job's duration estimate. */
  lemma ValidationAgreesWithCreate(c: ReplicaSetConfig, jobId: string, now: string)
    ensures ValidationReportFor(c).valid <==> CreateResponseFor(c, jobId, now).status != Failed
    ensures ValidationReportFor(c).estimatedCompletionMinutes == NewJob(jobId, c, now).estimatedCompletionMinutes
  {
  }

  // ---- Destroy stub ----

  datatype DestroyResponse = DestroyResponse(
    jobId: string,
    replicaSetName: string,
    status: string,
    message: string,
    backupJobId: Option<string>)

  /** The destroy route answers with a fixed pending job; a backup job id
      comes with it exactly when a backup before destroying was asked for. */
  function DestroyReplicaSet(name: string, request: ReplicaSetDestroyRequest): (r: DestroyResponse)
    ensures r.backupJobId.Some? <==> request.backupBeforeDestroy
    ensures r.replicaSetName == name && r.status == StatusValue(Pending)
  {
    DestroyResponse("delete-job-id", name, "pending", "ReplicaSet 삭제 작업이 시작되었습니다",
                    if request.backupBeforeDestroy then Some("backup-job-id") else None)
  }

  /** The stub looks at nothing but the backup flag: not `force`, not the
      name inside the request body, and not the registry. */
  lemma DestroyIgnoresForceAndBody(name: string, request: ReplicaSetDestroyRequest, force: bool, bodyName: string)
    ensures DestroyReplicaSet(name, request.(force := force, replicaSetName := bodyName))
            == DestroyReplicaSet(name, request)
    ensures DestroyReplicaSet(name, request).jobId == "delete-job-id"
  {
  }

  // ---- Versions ----

  /** One entry of the route's version table; `recommended` is absent from
      an entry that does not carry the key. */
  datatype VersionInfo = VersionInfo(features: seq<string>, minMemoryGb: nat, minDiskGb: nat, recommended: Option<bool>)

  datatype VersionsResponse = VersionsResponse(
    supportedVersions: seq<string>,
    recommendedVersion: string,
    versionInfo: seq<(string, VersionInfo)>)

  /** The versions route: the validator's supported versions and
      recommendation, with a descriptive table per version. */
  function SupportedVersionsRoute(): (r: VersionsResponse)
    ensures r.recommendedVersion in r.supportedVersions
    ensures forall s :: s in r.supportedVersions <==> ParseVersion(s).Some?
  {
    var vs := GetSupportedVersions();
    var values := seq(|vs|, i requires 0 <= i < |vs| => VersionValue(vs[i]));
    assert values == ["7.0", "8.0"];
    VersionsResponse(
      values,
      VersionValue(GetRecommendedVersion()),
      [("7.0", VersionInfo(["Compound Wildcard Index", "Bulkwrite API"], 2, 20, None)),
       ("8.0", VersionInfo(["Sharded Time Series", "Density-based Outlier Detection", "Range Deletion"], 4, 20, Some(true)))])
  }

  /** The route's descriptive table agrees with the validator's
      requirement table on memory, disk and the recommended version: only
      the recommended version's entry carries the key, set to true. */
  lemma VersionTableAgreesWithRequirements()
    ensures var r := SupportedVersionsRoute();
            forall k :: 0 <= k < |r.versionInfo| ==>
              ParseVersion(r.versionInfo[k].0).Some?
              && var req := Requirements(ParseVersion(r.versionInfo[k].0).value);
              && r.versionInfo[k].1.minMemoryGb == req.minMemoryGb
              && r.versionInfo[k].1.minDiskGb == req.minDiskGb
              && (r.versionInfo[k].1.recommended.Some? <==> req.recommended)
              && (r.versionInfo[k].1.recommended.Some? ==> r.versionInfo[k].1.recommended.value)
  {
  }

  // ---- One service per request ----

  /** The job-status route as wired: the service is built anew for every
      request, so its registry is empty and every id is unknown. */
  method GetJobStatusPerRequest(jobId: string) returns (r: Result<JobRecord, ApiError>)
    ensures r == Failure(NotFound("작업 ID를 찾을 수 없습니다: " + jobId))
  {
    var svc := new TerraformService(DefaultTemplateDir, DefaultWorkspaceDir);
    r := JobStatusRoute(StrValues, svc, jobId);
  }

  /** Creating a job and asking for it in the next request, as wired: the
      creation is accepted, yet the job is not found. */
  method CreateThenGetPerRequest(request: ReplicaSetCreateRequest, jobId: string, now: string)
    returns (created: CreateResponse, status: Result<JobRecord, ApiError>)
    ensures created.status == Pending <==> Errors(request.config) == []
    ensures status.Failure?
  {
    var first := new TerraformService(DefaultTemplateDir, DefaultWorkspaceDir);
    created := first.CreateReplicaSet(request, jobId, now);
    var second := new TerraformService(DefaultTemplateDir, DefaultWorkspaceDir);
    status := JobStatusRoute(StrValues, second, jobId);
  }

  /** The same two requests served by one shared service: the accepted
      job is found, pending, as it was registered. */
  method CreateThenGet(svc: TerraformService, request: ReplicaSetCreateRequest, jobId: string, now: string)
    returns (created: CreateResponse, status: Result<JobRecord, ApiError>)
    requires svc.Valid()
    modifies svc
    ensures svc.Valid()
    ensures created.status == Pending <==> Errors(request.config) == []
    ensures Errors(request.config) == [] ==> status == Success(NewJob(jobId, request.config, now))
    ensures Errors(request.config) != [] ==>
              (status.Success? <==> jobId in old(svc.jobStatus) && old(svc.jobStatus)[jobId].topology.None?)
  {
    created := svc.CreateReplicaSet(request, jobId, now);
    status := JobStatusRoute(StrValues, svc, jobId);
  }
}
