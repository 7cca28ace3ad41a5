/**
  The `job_status` view of alambic_app/views.py: it reduces the Celery
  statuses of a pipeline's tasks to one progress report.

  Celery is represented by a single total lookup `status` from a task id to
  that task's status. It serves both for the root result (`AsyncResult(job_id)`)
  and for every step (`AsyncResult(task_id)`). The task-reference table of the
  job (`tasks.get_pipeline_task_refs(job_id)`) is an input: its entries in the
  dictionary's own order.
*/
module JobStatus {
  import opened Wrappers
  import opened Http

  /** A Celery state name other than the two job_status tests for (PENDING, STARTED, RETRY, ...). */
  type OtherState = s: string | s != "SUCCESS" && s != "FAILURE" witness "PENDING"

  /** The status of one Celery task; every status other than SUCCESS and FAILURE is `Other`. */
  datatype TaskStatus = Success | Failure | Other(name: OtherState)

  /** `result.status`: the state name Celery reports. */
  function StateName(t: TaskStatus): string
  {
    match t
    case Success => "SUCCESS"
    case Failure => "FAILURE"
    case Other(name) => name
  }

  /**
    Statuses and state names correspond one to one, so testing a status for
    `Success` or `Failure` is testing its name against "SUCCESS" or "FAILURE".
  */
  lemma StateNameTests(t: TaskStatus, u: TaskStatus)
    ensures t.Success? <==> StateName(t) == SUCCESS
    ensures t.Failure? <==> StateName(t) == FAILURE
    ensures StateName(t) == StateName(u) ==> t == u
  {
  }

  /** One entry of the task-reference table: task name -> {"step": step, "id": id}. */
  datatype TaskRef = TaskRef(task: string, step: int, id: string)

  const SUCCESS := "SUCCESS"
  const FAILURE := "FAILURE"
  const RUNNING := "RUNNING..."
  const MISSING_TOKEN := "Invalid or missing job id."

  // ---------------------------------------------------------------------------
  // sorted(task_refs.items(), key=lambda kv: kv[1]["step"]): a stable sort

  ghost predicate SortedByStep(s: seq<TaskRef>)
  {
    forall i, j :: 0 <= i < j < |s| ==> s[i].step <= s[j].step
  }

  /** Puts `x` in front of the first entry whose step is not below its own. */
  function InsertByStep(x: TaskRef, t: seq<TaskRef>): (r: seq<TaskRef>)
    ensures |r| == |t| + 1 && (r[0] == x || (t != [] && r[0] == t[0]))
    ensures SortedByStep(t) ==> SortedByStep(r)
  {
    if t == [] || x.step <= t[0].step then [x] + t
    else [t[0]] + InsertByStep(x, t[1..])
  }

  /** The table's entries in ascending step order; ties keep the table's order. */
  function SortByStep(refs: seq<TaskRef>): (r: seq<TaskRef>)
    ensures |r| == |refs|
    ensures SortedByStep(r)
  {
    if refs == [] then [] else InsertByStep(refs[0], SortByStep(refs[1..]))
  }

  lemma {:induction false} InsertByStepPermutes(x: TaskRef, t: seq<TaskRef>)
    ensures multiset(InsertByStep(x, t)) == multiset([x] + t)
  {
    if t != [] && x.step > t[0].step {
      InsertByStepPermutes(x, t[1..]);
      assert t == [t[0]] + t[1..];
    }
  }

  /** Sorting only reorders the table: the same entries, each as often. */
  lemma {:induction false} SortByStepPermutes(refs: seq<TaskRef>)
    ensures multiset(SortByStep(refs)) == multiset(refs)
  {
    if refs != [] {
      SortByStepPermutes(refs[1..]);
      InsertByStepPermutes(refs[0], SortByStep(refs[1..]));
      assert refs == [refs[0]] + refs[1..];
    }
  }

  /** The entries of `s` whose step is `k`, in their order in `s`. */
  function WithStep(s: seq<TaskRef>, k: int): seq<TaskRef>
  {
    if s == [] then [] else (if s[0].step == k then [s[0]] else []) + WithStep(s[1..], k)
  }

  lemma {:induction false} InsertByStepStable(x: TaskRef, t: seq<TaskRef>, k: int)
    ensures WithStep(InsertByStep(x, t), k) == WithStep([x] + t, k)
  {
    assert ([x] + t)[1..] == t;
    if t == [] || x.step <= t[0].step {
    } else {
      var rest := InsertByStep(x, t[1..]);
      InsertByStepStable(x, t[1..], k);
      assert ([t[0]] + rest)[1..] == rest;
      assert ([x] + t[1..])[1..] == t[1..];
    }
  }

  /** Stability: for every step value, the entries carrying it keep their relative order. */
  lemma {:induction false} SortByStepStable(refs: seq<TaskRef>, k: int)
    ensures WithStep(SortByStep(refs), k) == WithStep(refs, k)
  {
    if refs != [] {
      var rest := SortByStep(refs[1..]);
      InsertByStepStable(refs[0], rest, k);
      SortByStepStable(refs[1..], k);
      assert ([refs[0]] + rest)[1..] == rest;
    }
  }

  // ---------------------------------------------------------------------------
  // The reduction over the sorted steps

  /** The ids of the steps, in order. */
  function Ids(s: seq<TaskRef>): (r: seq<string>)
    ensures |r| == |s|
    ensures forall i :: 0 <= i < |s| ==> r[i] == s[i].id
  {
    seq(|s|, i requires 0 <= i < |s| => s[i].id)
  }

  /** How many of the steps Celery reports as SUCCESS. */
  function CountSuccesses(steps: seq<TaskRef>, status: string -> TaskStatus): (n: nat)
    ensures n <= |steps|
  {
    if steps == [] then 0
    else (if status(steps[0].id) == Success then 1 else 0) + CountSuccesses(steps[1..], status)
  }

  /** The position of the first step whose status is FAILURE, or |steps| if none fails. */
  function FirstFailure(steps: seq<TaskRef>, status: string -> TaskStatus): (k: nat)
    ensures k <= |steps|
    ensures forall j :: 0 <= j < k ==> status(steps[j].id) != Failure
    ensures k < |steps| ==> status(steps[k].id) == Failure
  {
    if steps == [] then 0
    else if status(steps[0].id) == Failure then 0
    else 1 + FirstFailure(steps[1..], status)
  }

  /** Only a SUCCESS adds one to the counter; every other status leaves it unchanged. */
  lemma {:induction false} CountSuccessesAppend(s: seq<TaskRef>, x: TaskRef, status: string -> TaskStatus)
    ensures CountSuccesses(s + [x], status)
         == CountSuccesses(s, status) + (if status(x.id) == Success then 1 else 0)
  {
    if s != [] {
      assert (s + [x])[1..] == s[1..] + [x];
      CountSuccessesAppend(s[1..], x, status);
    }
  }

  lemma {:induction false} CountSuccessesInsert(x: TaskRef, t: seq<TaskRef>, status: string -> TaskStatus)
    ensures CountSuccesses(InsertByStep(x, t), status) == CountSuccesses([x] + t, status)
  {
    assert ([x] + t)[1..] == t;
    if t != [] && x.step > t[0].step {
      var rest := InsertByStep(x, t[1..]);
      CountSuccessesInsert(x, t[1..], status);
      assert ([t[0]] + rest)[1..] == rest;
      assert ([x] + t[1..])[1..] == t[1..];
    }
  }

  /** The number of successes does not depend on the order the steps are visited in. */
  lemma {:induction false} CountSuccessesSorted(refs: seq<TaskRef>, status: string -> TaskStatus)
    ensures CountSuccesses(SortByStep(refs), status) == CountSuccesses(refs, status)
  {
    if refs != [] {
      CountSuccessesInsert(refs[0], SortByStep(refs[1..]), status);
      CountSuccessesSorted(refs[1..], status);
    }
  }

  /**
    What job_status reports, one constructor per JsonResponse it returns;
    the field names are the keys under which the job id appears.
  */
  datatype StatusReport =
    | Finished(token: string)                                 // {"token", "status": "SUCCESS"}
    | Failed(id: string)                                      // {"id", "status": "FAILURE"}
    | Running(id: string, currentStep: int, totalSteps: int)  // {"id", "status": "RUNNING...", "current_step", "total_steps"}

  /** The body of the JsonResponse for a report. */
  function Body(report: StatusReport): (body: JsonObject)
    ensures "status" in body
    ensures report.Finished? <==> body["status"] == JStr(SUCCESS)
    ensures report.Failed? <==> body["status"] == JStr(FAILURE)
    ensures report.Running? <==> body["status"] == JStr(RUNNING)
    ensures report.Finished? ==> body.Keys == {"token", "status"} && body["token"] == JStr(report.token)
    ensures report.Failed? ==> body.Keys == {"id", "status"} && body["id"] == JStr(report.id)
    ensures report.Running? ==> body.Keys == {"id", "status", "current_step", "total_steps"}
                                && body["id"] == JStr(report.id)
                                && body["current_step"] == JInt(report.currentStep)
                                && body["total_steps"] == JInt(report.totalSteps)
  {
    match report
    case Finished(token) => map["token" := JStr(token), "status" := JStr(SUCCESS)]
    case Failed(id) => map["id" := JStr(id), "status" := JStr(FAILURE)]
    case Running(id, current, total) =>
      map["id" := JStr(id), "status" := JStr(RUNNING),
          "current_step" := JInt(current), "total_steps" := JInt(total)]
  }

  /**
    The answer once the root task is known not to have succeeded, and the ids
    looked up for it: the steps in the given order up to and including the
    first that failed.
  */
  function Reduce(jobId: string, steps: seq<TaskRef>, totalSteps: int, status: string -> TaskStatus)
    : (StatusReport, seq<string>)
  {
    var k := FirstFailure(steps, status);
    if k < |steps| then (Failed(jobId), Ids(steps[..k + 1]))
    else (Running(jobId, CountSuccesses(steps, status) + 1, totalSteps), Ids(steps))
  }

  /**
    The answer of job_status and the ids it looks up, in lookup order: the
    root first, then the steps in ascending step order.
  */
  function Respond(req: Request, refs: seq<TaskRef>, status: string -> TaskStatus)
    : (Result<StatusReport, ViewError>, seq<string>)
  {
    if req.verb != GET then (Err(BadRequest(INVALID_SERVER_REQUEST)), [])
    else if "token" !in req.params then (Err(Invalid(MISSING_TOKEN)), [])
    else
      var jobId := req.params["token"];
      if status(jobId) == Success then (Ok(Finished(jobId)), [jobId])
      else
        var reduced := Reduce(jobId, SortByStep(refs), |refs|, status);
        (Ok(reduced.0), [jobId] + reduced.1)
  }

  /**
    The loop of job_status over the steps: it looks each step up in turn,
    returns at the first FAILURE and counts the SUCCESSes.
  */
  method ScanSteps(jobId: string, steps: seq<TaskRef>, totalSteps: int, status: string -> TaskStatus)
    returns (response: StatusReport, looked: seq<string>)
    ensures (response, looked) == Reduce(jobId, steps, totalSteps, status)
  {
    looked := [];
    var successCounter := 0;
    for i := 0 to |steps|
      invariant successCounter == CountSuccesses(steps[..i], status)
      invariant i <= FirstFailure(steps, status)
      invariant looked == Ids(steps[..i])
    {
      var result := status(steps[i].id);
      assert Ids(steps[..i + 1]) == Ids(steps[..i]) + [steps[i].id];
      looked := looked + [steps[i].id];
      if result == Failure {
        response := Failed(jobId);
        return;
      }
      assert steps[..i + 1] == steps[..i] + [steps[i]];
      CountSuccessesAppend(steps[..i], steps[i], status);
      if result == Success {
        successCounter := successCounter + 1;
      }
    }
    assert steps[..|steps|] == steps;
    response := Running(jobId, successCounter + 1, totalSteps);
  }

  /** job_status itself: the request checks, the root short-circuit, then the scan in step order. */
  method Handle(req: Request, refs: seq<TaskRef>, status: string -> TaskStatus)
    returns (r: Result<StatusReport, ViewError>, queried: seq<string>)
    ensures (r, queried) == Respond(req, refs, status)
  {
    if req.verb != GET {
      return Err(BadRequest(INVALID_SERVER_REQUEST)), [];
    }
    if "token" !in req.params {
      return Err(Invalid(MISSING_TOKEN)), [];
    }
    var jobId := req.params["token"];
    var root := status(jobId);
    if root == Success {
      return Ok(Finished(jobId)), [jobId];
    }
    var response, looked := ScanSteps(jobId, SortByStep(refs), |refs|, status);
    return Ok(response), [jobId] + looked;
  }

  // ---------------------------------------------------------------------------
  // Properties of the reduction

  /**
    A successful root answers {token, status: SUCCESS} whatever the table and
    the steps' statuses are, and nothing but the root is looked up.
  */
  lemma SuccessShortCircuits(req: Request, refs1: seq<TaskRef>, refs2: seq<TaskRef>,
                             status1: string -> TaskStatus, status2: string -> TaskStatus)
    requires req.verb == GET && "token" in req.params
    requires status1(req.params["token"]) == Success && status2(req.params["token"]) == Success
    ensures Respond(req, refs1, status1) == Respond(req, refs2, status2)
    ensures Respond(req, refs1, status1)
         == (Ok(Finished(req.params["token"])), [req.params["token"]])
  {
  }

  /** Once the root has not succeeded, job_status answers what the scan of the sorted steps answers. */
  lemma RespondReduces(req: Request, refs: seq<TaskRef>, status: string -> TaskStatus)
    requires req.verb == GET && "token" in req.params && status(req.params["token"]) != Success
    ensures var jobId := req.params["token"];
            var reduced := Reduce(jobId, SortByStep(refs), |refs|, status);
            Respond(req, refs, status) == (Ok(reduced.0), [jobId] + reduced.1)
  {
  }

  /** A scan that meets no failure reports RUNNING with the number of successes plus one. */
  lemma ReduceRunning(jobId: string, steps: seq<TaskRef>, totalSteps: int, status: string -> TaskStatus)
    requires FirstFailure(steps, status) == |steps|
    ensures Reduce(jobId, steps, totalSteps, status).0
         == Running(jobId, CountSuccesses(steps, status) + 1, totalSteps)
  {
  }

  /**
    When the root has not succeeded and the k-th step in ascending step order
    is the first to fail, the answer is {id, status: FAILURE} and the lookups
    stop at that step.
  */
  lemma {:induction false} EarliestFailureWins(req: Request, refs: seq<TaskRef>, status: string -> TaskStatus, k: nat)
    requires req.verb == GET && "token" in req.params && status(req.params["token"]) != Success
    requires k < |refs|
    requires status(SortByStep(refs)[k].id) == Failure
    requires forall j :: 0 <= j < k ==> status(SortByStep(refs)[j].id) != Failure
    ensures Respond(req, refs, status)
         == (Ok(Failed(req.params["token"])),
             [req.params["token"]] + Ids(SortByStep(refs)[..k + 1]))
  {
  }

  /** A table with no failed entry still has none once sorted. */
  lemma NoFailureAfterSort(refs: seq<TaskRef>, status: string -> TaskStatus)
    requires forall j :: 0 <= j < |refs| ==> status(refs[j].id) != Failure
    ensures FirstFailure(SortByStep(refs), status) == |refs|
  {
    var steps := SortByStep(refs);
    SortByStepPermutes(refs);
    forall j | 0 <= j < |steps|
      ensures status(steps[j].id) != Failure
    {
      assert steps[j] in multiset(refs);
    }
  }

  /**
    With no failed step and a root that has not succeeded, the answer is
    RUNNING with current_step one past the number of successful steps of
    the table and total_steps the table's size; hence
    1 <= current_step <= total_steps + 1.
  */
  lemma RunningProgress(req: Request, refs: seq<TaskRef>, status: string -> TaskStatus)
    requires req.verb == GET && "token" in req.params && status(req.params["token"]) != Success
    requires forall j :: 0 <= j < |refs| ==> status(refs[j].id) != Failure
    ensures Respond(req, refs, status).0
         == Ok(Running(req.params["token"], CountSuccesses(refs, status) + 1, |refs|))
    ensures 1 <= CountSuccesses(refs, status) + 1 <= |refs| + 1
  {
    ScanSortedRunning(req.params["token"], refs, status);
    RespondReduces(req, refs, status);
  }

  lemma ScanSortedRunning(jobId: string, refs: seq<TaskRef>, status: string -> TaskStatus)
    requires forall j :: 0 <= j < |refs| ==> status(refs[j].id) != Failure
    ensures Reduce(jobId, SortByStep(refs), |refs|, status).0
         == Running(jobId, CountSuccesses(refs, status) + 1, |refs|)
  {
    NoFailureAfterSort(refs, status);
    CountSuccessesSorted(refs, status);
    ReduceRunning(jobId, SortByStep(refs), |refs|, status);
  }

  /** Where two status lookups agree on the ids the scan looks up, it gives the same answer. */
  lemma {:induction false} ScanReadsOnlyLookedUp(steps: seq<TaskRef>, status1: string -> TaskStatus,
                                                status2: string -> TaskStatus)
    requires var k := FirstFailure(steps, status1);
             forall j :: 0 <= j < |steps| && j <= k ==> status1(steps[j].id) == status2(steps[j].id)
    ensures FirstFailure(steps, status1) == FirstFailure(steps, status2)
    ensures FirstFailure(steps, status1) == |steps| ==> CountSuccesses(steps, status1) == CountSuccesses(steps, status2)
  {
    if steps != [] && status1(steps[0].id) != Failure {
      ScanReadsOnlyLookedUp(steps[1..], status1, status2);
    }
  }

  lemma ReduceReadsOnlyLookedUp(jobId: string, steps: seq<TaskRef>, totalSteps: int,
                                status1: string -> TaskStatus, status2: string -> TaskStatus)
    requires forall id :: id in Reduce(jobId, steps, totalSteps, status1).1 ==> status1(id) == status2(id)
    ensures Reduce(jobId, steps, totalSteps, status1) == Reduce(jobId, steps, totalSteps, status2)
  {
    var k := FirstFailure(steps, status1);
    var looked := Reduce(jobId, steps, totalSteps, status1).1;
    forall j | 0 <= j < |steps| && j <= k
      ensures status1(steps[j].id) == status2(steps[j].id)
    {
      if k < |steps| {
        assert looked[j] == steps[j].id;
      } else {
        assert looked[j] == steps[j].id;
      }
      assert steps[j].id in looked;
    }
    ScanReadsOnlyLookedUp(steps, status1, status2);
  }

  /**
    Statuses that job_status does not look up cannot change its answer: in
    particular no step after the first failure, and no step at all after a
    successful root, is ever consulted.
  */
  lemma UnqueriedStatusesIrrelevant(req: Request, refs: seq<TaskRef>,
                                    status1: string -> TaskStatus, status2: string -> TaskStatus)
    requires forall id :: id in Respond(req, refs, status1).1 ==> status1(id) == status2(id)
    ensures Respond(req, refs, status1) == Respond(req, refs, status2)
  {
    if req.verb == GET && "token" in req.params {
      var jobId := req.params["token"];
      assert jobId in Respond(req, refs, status1).1;
      if status1(jobId) != Success {
        var steps := SortByStep(refs);
        var looked := Reduce(jobId, steps, |refs|, status1).1;
        assert Respond(req, refs, status1).1 == [jobId] + looked;
        forall id | id in looked ensures status1(id) == status2(id) {
          assert id in [jobId] + looked;
        }
        ReduceReadsOnlyLookedUp(jobId, steps, |refs|, status1, status2);
      }
    }
  }

  /**
    The SUCCESS answer names the job under the key "token"; the FAILURE and
    RUNNING answers name it under "id". Requests without a GET verb or a
    token are refused with the matching error.
  */
  lemma ResponseKeys(req: Request, refs: seq<TaskRef>, status: string -> TaskStatus)
    ensures var r := Respond(req, refs, status).0;
            && (r.Err? <==> req.verb != GET || "token" !in req.params)
            && (req.verb != GET ==> r == Err(BadRequest(INVALID_SERVER_REQUEST)))
            && (req.verb == GET && "token" !in req.params ==> r == Err(Invalid(MISSING_TOKEN)))
            && (r.Ok? ==> var body := Body(r.value);
                          && "status" in body
                          && ("token" in body <==> status(req.params["token"]) == Success)
                          && ("id" in body <==> status(req.params["token"]) != Success)
                          && (body["status"] == JStr(SUCCESS) <==> status(req.params["token"]) == Success))
  {
  }
}
