/**
 * The API server the controller talks to through its client: get a suite by
 * name, list test cases and test workers, and update the status of each kind.
 *
 * A `World` is the server's content, the number of calls made so far and the
 * log of the status writes it accepted, in order. Which calls fail is given by
 * a fault schedule `faults`: the call numbered `k` fails with `faults[k]` when
 * `k in faults`. Every call the controller makes ends its pass when it fails,
 * so a pass's behaviour is fixed by the schedule, and a statement about all
 * schedules is a statement about every way the server may answer.
 */
module Cluster {
  import opened Wrappers
  import opened Api

  datatype ApiError = NotFound(name: string) | Failure(message: string)

  function ApiErrorText(e: ApiError): string
  {
    match e
    case NotFound(n) => "\"" + n + "\" not found"
    case Failure(m) => m
  }

  /** A status write the server accepted. */
  datatype Write =
    | SuiteStatus(suite: string, suiteStatus: TestSuiteStatus)
    | CaseStatus(testCase: string, caseStatus: TestCaseStatus)
    | WorkerStatus(testWorker: string, workerStatus: TestWorkerStatus)

  datatype World = World(
    suites: map<string, TestSuite>,
    testCases: seq<TestCase>,
    testWorkers: seq<TestWorker>,
    calls: nat,
    log: seq<Write>)

  predicate DistinctCaseNames(cases: seq<TestCase>)
  {
    forall i, j :: 0 <= i < j < |cases| ==> cases[i].name != cases[j].name
  }

  predicate DistinctWorkerNames(workers: seq<TestWorker>)
  {
    forall i, j :: 0 <= i < j < |workers| ==> workers[i].name != workers[j].name
  }

  /** The server keeps one object per name and kind, and stores each suite under its own name. */
  predicate WellFormed(w: World)
  {
    && (forall n :: n in w.suites ==> w.suites[n].name == n)
    && DistinctCaseNames(w.testCases)
    && DistinctWorkerNames(w.testWorkers)
  }

  /** The world after one more call, whatever its answer. */
  function Tick(w: World): World
  {
    w.(calls := w.calls + 1)
  }

  function StoreGet(w: World, name: string, faults: map<nat, string>): (Result<TestSuite, ApiError>, World)
  {
    if w.calls in faults then (Err(Failure(faults[w.calls])), Tick(w))
    else if name in w.suites then (Ok(w.suites[name]), Tick(w))
    else (Err(NotFound(name)), Tick(w))
  }

  /** Writes `s.status` over the status of the stored suite of the same name. */
  function StoreUpdateSuiteStatus(w: World, s: TestSuite, faults: map<nat, string>): (Option<ApiError>, World)
  {
    if w.calls in faults then (Some(Failure(faults[w.calls])), Tick(w))
    else if s.name !in w.suites then (Some(NotFound(s.name)), Tick(w))
    else
      (None, Tick(w).(suites := w.suites[s.name := w.suites[s.name].(status := s.status)],
                      log := w.log + [SuiteStatus(s.name, s.status)]))
  }

  function StoreListTestCases(w: World, faults: map<nat, string>): (Result<seq<TestCase>, ApiError>, World)
  {
    if w.calls in faults then (Err(Failure(faults[w.calls])), Tick(w))
    else (Ok(w.testCases), Tick(w))
  }

  predicate HasCase(cases: seq<TestCase>, name: string)
  {
    exists j :: 0 <= j < |cases| && cases[j].name == name
  }

  /** `cases` with the status of every test case named `name` replaced by `status`. */
  function SetCaseStatus(cases: seq<TestCase>, name: string, status: TestCaseStatus): (r: seq<TestCase>)
    ensures |r| == |cases|
    ensures forall j :: 0 <= j < |cases| ==>
      r[j] == if cases[j].name == name then cases[j].(status := status) else cases[j]
  {
    seq(|cases|, j requires 0 <= j < |cases| =>
      if cases[j].name == name then cases[j].(status := status) else cases[j])
  }

  function StoreUpdateTestCaseStatus(w: World, tc: TestCase, faults: map<nat, string>): (Option<ApiError>, World)
  {
    if w.calls in faults then (Some(Failure(faults[w.calls])), Tick(w))
    else if !HasCase(w.testCases, tc.name) then (Some(NotFound(tc.name)), Tick(w))
    else
      (None, Tick(w).(testCases := SetCaseStatus(w.testCases, tc.name, tc.status),
                      log := w.log + [CaseStatus(tc.name, tc.status)]))
  }

  function StoreListTestWorkers(w: World, faults: map<nat, string>): (Result<seq<TestWorker>, ApiError>, World)
  {
    if w.calls in faults then (Err(Failure(faults[w.calls])), Tick(w))
    else (Ok(w.testWorkers), Tick(w))
  }

  predicate HasWorker(workers: seq<TestWorker>, name: string)
  {
    exists j :: 0 <= j < |workers| && workers[j].name == name
  }

  /** `workers` with the status of every test worker named `name` replaced by `status`. */
  function SetWorkerStatus(workers: seq<TestWorker>, name: string, status: TestWorkerStatus): (r: seq<TestWorker>)
    ensures |r| == |workers|
    ensures forall j :: 0 <= j < |workers| ==>
      r[j] == if workers[j].name == name then workers[j].(status := status) else workers[j]
  {
    seq(|workers|, j requires 0 <= j < |workers| =>
      if workers[j].name == name then workers[j].(status := status) else workers[j])
  }

  function StoreUpdateTestWorkerStatus(w: World, tw: TestWorker, faults: map<nat, string>): (Option<ApiError>, World)
  {
    if w.calls in faults then (Some(Failure(faults[w.calls])), Tick(w))
    else if !HasWorker(w.testWorkers, tw.name) then (Some(NotFound(tw.name)), Tick(w))
    else
      (None, Tick(w).(testWorkers := SetWorkerStatus(w.testWorkers, tw.name, tw.status),
                      log := w.log + [WorkerStatus(tw.name, tw.status)]))
  }

  /** The controller's client: the server's content as mutable fields. */
  class Client {
    var suites: map<string, TestSuite>
    var testCases: seq<TestCase>
    var testWorkers: seq<TestWorker>
    var calls: nat
    var log: seq<Write>
    const faults: map<nat, string>

    function State(): World
      reads this
    {
      World(suites, testCases, testWorkers, calls, log)
    }

    constructor (w: World, faults: map<nat, string>)
      ensures State() == w && this.faults == faults
    {
      suites, testCases, testWorkers, calls, log := w.suites, w.testCases, w.testWorkers, w.calls, w.log;
      this.faults := faults;
    }

    method Set(w: World)
      modifies this
      ensures State() == w
    {
      suites, testCases, testWorkers, calls, log := w.suites, w.testCases, w.testWorkers, w.calls, w.log;
    }

    method Get(name: string) returns (r: Result<TestSuite, ApiError>)
      modifies this
      ensures (r, State()) == StoreGet(old(State()), name, faults)
    {
      var answer := StoreGet(State(), name, faults);
      r := answer.0;
      Set(answer.1);
    }

    method UpdateSuiteStatus(s: TestSuite) returns (err: Option<ApiError>)
      modifies this
      ensures (err, State()) == StoreUpdateSuiteStatus(old(State()), s, faults)
    {
      var answer := StoreUpdateSuiteStatus(State(), s, faults);
      err := answer.0;
      Set(answer.1);
    }

    method ListTestCases() returns (r: Result<seq<TestCase>, ApiError>)
      modifies this
      ensures (r, State()) == StoreListTestCases(old(State()), faults)
    {
      var answer := StoreListTestCases(State(), faults);
      r := answer.0;
      Set(answer.1);
    }

    method UpdateTestCaseStatus(tc: TestCase) returns (err: Option<ApiError>)
      modifies this
      ensures (err, State()) == StoreUpdateTestCaseStatus(old(State()), tc, faults)
    {
      var answer := StoreUpdateTestCaseStatus(State(), tc, faults);
      err := answer.0;
      Set(answer.1);
    }

    method ListTestWorkers() returns (r: Result<seq<TestWorker>, ApiError>)
      modifies this
      ensures (r, State()) == StoreListTestWorkers(old(State()), faults)
    {
      var answer := StoreListTestWorkers(State(), faults);
      r := answer.0;
      Set(answer.1);
    }

    method UpdateTestWorkerStatus(tw: TestWorker) returns (err: Option<ApiError>)
      modifies this
      ensures (err, State()) == StoreUpdateTestWorkerStatus(old(State()), tw, faults)
    {
      var answer := StoreUpdateTestWorkerStatus(State(), tw, faults);
      err := answer.0;
      Set(answer.1);
    }
  }
}
